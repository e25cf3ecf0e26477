/** Cancelling installs: a delete reaches the install of its workspace, and nothing else ends an install's context but Stop. */
module LifecycleCancel {
  import opened Common
  import opened Workspaces
  import opened Lifecycle
  import opened LifecycleInv
  import opened LifecycleTheorems
  import opened LifecycleHistory
  import LifecycleFlow
  import Jobs = InstallPool

  // ----- what every step keeps -----

  /** Tokens are given out in order, and the cancel entry of an id is the token of the worker that runs it. */
  ghost predicate EntriesReach(p: Jobs.Pool) {
    && (forall t :: t in p.cancelled ==> t < p.nextToken)
    && (forall w :: w in p.workers && p.workers[w].Running? ==>
          p.workers[w].job.id in p.installCancel && p.installCancel[p.workers[w].job.id] == p.workers[w].token)
  }

  /** What a delete has taken cancels only its own id; if it saw the id submitted, it cancels every install of it, or has. */
  ghost predicate TakenReaches(p: Jobs.Pool, call: Call) {
    && (call.DeleteTaken? && call.cancel.Some? ==>
          && call.cancel.value < p.nextToken
          && forall w :: w in p.workers && p.workers[w].Running? && p.workers[w].token == call.cancel.value ==> p.workers[w].job.id == call.id)
    && (call.DeleteTaken? && call.known ==> forall w :: Jobs.Holds(p, w, call.id) ==> call.cancel == Some(p.workers[w].token))
    && (call.DeleteWaiting? && call.known ==> forall w :: Jobs.Holds(p, w, call.id) ==> p.workers[w].token in p.cancelled)
  }

  ghost predicate TokenInv(p: Jobs.Pool, calls: map<nat, Call>) {
    EntriesReach(p) && forall c :: c in calls && Took(calls[c]) ==> TakenReaches(p, calls[c])
  }

  /** Whoever has taken jobs had taken them before. */
  ghost predicate TookFrom(calls: map<nat, Call>, calls': map<nat, Call>) {
    forall c :: c in calls' && Took(calls'[c]) ==> c in calls && calls'[c] == calls[c]
  }

  ghost predicate SameTokens(p: Jobs.Pool, q: Jobs.Pool) {
    Jobs.SameRunning(p, q) && q.cancelled == p.cancelled && q.installCancel == p.installCancel && q.nextToken == p.nextToken
  }

  lemma TokensFrame(p: Jobs.Pool, q: Jobs.Pool, calls: map<nat, Call>, calls': map<nat, Call>)
    requires TokenInv(p, calls) && SameTokens(p, q) && TookFrom(calls, calls')
    ensures TokenInv(q, calls')
  {
    forall c | c in calls' && Took(calls'[c]) ensures TakenReaches(q, calls'[c]) { TakenFrame(p, q, calls[c]); }
  }

  lemma TakenFrame(p: Jobs.Pool, q: Jobs.Pool, call: Call)
    requires TakenReaches(p, call) && SameTokens(p, q)
    ensures TakenReaches(q, call)
  {
    assert forall w, id :: Jobs.Holds(q, w, id) ==> Jobs.Holds(p, w, id);
  }

  lemma SlotTook(calls: map<nat, Call>, calls': map<nat, Call>, c: nat)
    requires OnlySlot(calls, calls', c) && (c in calls' ==> !Took(calls'[c]))
    ensures TookFrom(calls, calls')
  {}

  lemma CreateTokens(s: State, t: CreateStep)
    requires CreateEnabled(s, t) && Coherent(s.rows) && TokenInv(s.pool, s.calls)
    ensures TokenInv(ApplyCreate(s, t).pool, ApplyCreate(s, t).calls)
  {
    hide Coherent, ApplyCreate, OnlySlot, Jobs.Apply, TokenInv, SameTokens;
    CreateSlot(s, t);
    CreatePool(s, t);
    var d := ApplyCreate(s, t);
    hide CreateEnabled;
    SlotTook(s.calls, d.calls, t.c);
    TokensFrame(s.pool, d.pool, s.calls, d.calls);
  }

  lemma CreatePool(s: State, t: CreateStep)
    requires CreateEnabled(s, t) && Coherent(s.rows)
    ensures SameTokens(s.pool, ApplyCreate(s, t).pool)
  {
    hide Coherent, ApplyCreate, Jobs.Apply;
    CreateGate(s, t);
    if t.SubmitJob? && Jobs.Accepts(s.pool) { SubmitTokens(s.pool, s.calls[t.c].id); }
  }

  lemma SubmitTokens(p: Jobs.Pool, id: Id)
    requires Jobs.Enabled(p, Jobs.Submit(id))
    ensures SameTokens(p, Jobs.Apply(p, Jobs.Submit(id)))
  {}

  // ----- deletes -----

  /** The entry of an id is the token of its one holder. */
  lemma EntryIsHolder(p: Jobs.Pool, id: Id, w: nat)
    requires Jobs.PoolInv(p) && EntriesReach(p) && id in p.installCancel
    requires w in p.workers && p.workers[w].Running? && p.workers[w].token == p.installCancel[id]
    ensures p.workers[w].job.id == id
  {
    assert Jobs.Holders(p, id) != {};
    var v :| v in Jobs.Holders(p, id);
    assert p.workers[v].token == p.installCancel[id];
  }

  lemma TakeReaches(p: Jobs.Pool, id: Id, known: bool)
    requires Jobs.PoolInv(p) && EntriesReach(p)
    ensures TakenReaches(p, DeleteTaken(id, known, if id in p.installCancel then Some(p.installCancel[id]) else None))
  {
    if id in p.installCancel {
      forall w | w in p.workers && p.workers[w].Running? && p.workers[w].token == p.installCancel[id] ensures p.workers[w].job.id == id {
        EntryIsHolder(p, id, w);
      }
    }
    hide Jobs.Ordered, Jobs.Settled, Jobs.PoolCounted;
  }

  lemma TakeFields(s: State, c: nat)
    requires DeleteEnabled(s, TakeJobs(c))
    ensures var d, id := ApplyTake(s, c), s.calls[c].id;
      && SameTokens(s.pool, d.pool)
      && d.calls == s.calls[c := DeleteTaken(id, id in s.ticketOf, if id in s.pool.installCancel then Some(s.pool.installCancel[id]) else None)]
  {
    hide Jobs.Without;
  }

  lemma TakeTokens(s: State, c: nat)
    requires Jobs.PoolInv(s.pool) && DeleteEnabled(s, TakeJobs(c)) && TokenInv(s.pool, s.calls)
    ensures TokenInv(ApplyTake(s, c).pool, ApplyTake(s, c).calls)
  {
    var id := s.calls[c].id;
    TakeReaches(s.pool, id, id in s.ticketOf);
    TakeFields(s, c);
    hide Jobs.PoolInv, TakenReaches, ApplyTake, EntriesReach, DeleteEnabled;
    var d := ApplyTake(s, c);
    EntriesFrame(s.pool, d.pool);
    hide SameTokens;
    forall x | x in d.calls && Took(d.calls[x]) ensures TakenReaches(d.pool, d.calls[x]) {
      TakenFrame(s.pool, d.pool, d.calls[x]);
    }
  }

  lemma EntriesFrame(p: Jobs.Pool, q: Jobs.Pool)
    requires EntriesReach(p) && SameTokens(p, q)
    ensures EntriesReach(q)
  {}

  lemma FiredFrame(p: Jobs.Pool, token: Option<nat>, call: Call)
    requires TakenReaches(p, call)
    ensures TakenReaches(CancelIf(p, token), call)
  {
    assert forall w, id :: Jobs.Holds(CancelIf(p, token), w, id) ==> Jobs.Holds(p, w, id);
  }

  lemma FiredReaches(p: Jobs.Pool, d: Call)
    requires d.DeleteTaken? && TakenReaches(p, d)
    ensures TakenReaches(CancelIf(p, d.cancel), DeleteWaiting(d.id, d.known))
  {
    var q := CancelIf(p, d.cancel);
    forall w | d.known && Jobs.Holds(q, w, d.id) ensures q.workers[w].token in q.cancelled { assert Jobs.Holds(p, w, d.id); }
  }

  lemma FireTokens(s: State, c: nat)
    requires DeleteEnabled(s, FireCancel(c)) && TokenInv(s.pool, s.calls)
    ensures TokenInv(ApplyFire(s, c).pool, ApplyFire(s, c).calls)
  {
    var f, d := s.calls[c], ApplyFire(s, c);
    assert TakenReaches(s.pool, f);
    assert EntriesReach(d.pool);
    FiredReaches(s.pool, f);
    hide TakenReaches;
    forall x | x in d.calls && Took(d.calls[x]) ensures TakenReaches(d.pool, d.calls[x]) {
      if x != c { FiredFrame(s.pool, f.cancel, s.calls[x]); }
    }
  }

  lemma OtherTokens(s: State, t: DeleteStep)
    requires DeleteEnabled(s, t) && !t.TakeJobs? && !t.FireCancel? && TokenInv(s.pool, s.calls)
    ensures TokenInv(ApplyDelete(s, t).pool, ApplyDelete(s, t).calls)
  {
    DeleteSlot(s, t);
    SlotLeaves(s, t);
    var d := ApplyDelete(s, t);
    hide OnlySlot, TokenInv, ApplyDelete;
    SlotTook(s.calls, d.calls, t.c);
    TokensFrame(s.pool, d.pool, s.calls, d.calls);
  }

  lemma SlotLeaves(s: State, t: DeleteStep)
    requires DeleteEnabled(s, t) && !t.TakeJobs? && !t.FireCancel?
    ensures var d := ApplyDelete(s, t); d.pool == s.pool && (t.c in d.calls ==> !Took(d.calls[t.c]))
  {
    hide AddCall, DropCall, Proceed, ApplyRemove;
    match t
    case BeginDelete(c, x) => AddGate(s, c, DeleteBegun(x)); hide ApplyPass; BegunSlot(s, c, x);
    case CheckOpen(c) =>
      var next := if s.pool.stopped then None else Some(DeleteChecked(s.calls[c].id));
      ProceedGate(s, c, next);
      SlotProceeds(s, c, next);
    case PassIdle(c) => PassGate(s, c);
    case GiveUpWait(c) => ProceedGate(s, c, None); SlotProceeds(s, c, None);
    case LookUp(c) =>
      var next := if s.repoClosed || s.calls[c].id !in s.rows then None else Some(DeleteTearing(s.calls[c].id));
      ProceedGate(s, c, next);
      SlotProceeds(s, c, next);
    case RemoveRow(c) => RemoveGate(s, c, s.calls[c].id); RemoveSlot(s, c, s.calls[c].id);
  }

  lemma BegunSlot(s: State, c: nat, x: Id)
    ensures AddCall(s, c, DeleteBegun(x)).calls == s.calls[c := DeleteBegun(x)]
  {}

  lemma DeleteTokens(s: State, t: DeleteStep)
    requires Inv(s) && DeleteEnabled(s, t) && TokenInv(s.pool, s.calls)
    ensures TokenInv(ApplyDelete(s, t).pool, ApplyDelete(s, t).calls)
  {
    assert Jobs.PoolInv(s.pool);
    hide Inv, Jobs.PoolInv, TokenInv, ApplyTake, ApplyFire, ApplyPass, ApplyRemove, AddCall, DropCall, Proceed;
    match t
    case TakeJobs(c) => TakeTokens(s, c);
    case FireCancel(c) => FireTokens(s, c);
    case _ => OtherTokens(s, t);
  }

  // ----- workers -----

  /** Nobody holds an id while a job for it is still queued, and two workers never hold the same one. */
  lemma OneInstallEach(p: Jobs.Pool, ticketOf: map<Id, nat>)
    requires Jobs.PoolInv(p) && JobsInv(p, ticketOf)
    ensures forall w :: w in p.workers && p.workers[w].Running? && p.queue != [] ==> p.workers[w].job.id != p.queue[0].id
    ensures forall v, w :: v in p.workers && w in p.workers && p.workers[v].Running? && p.workers[w].Running? && p.workers[v].job.id == p.workers[w].job.id ==> v == w
  {
    hide Jobs.CountsMatch, Jobs.PoolCounted, Jobs.Settled;
    forall w | w in p.workers && p.workers[w].Running? && p.queue != [] ensures p.workers[w].job.id != p.queue[0].id {
      assert Ticketed(p.workers[w].job, ticketOf) && Ticketed(p.queue[0], ticketOf);
    }
    forall v, w | v in p.workers && w in p.workers && p.workers[v].Running? && p.workers[w].Running? && p.workers[v].job.id == p.workers[w].job.id ensures v == w {
      assert Ticketed(p.workers[v].job, ticketOf) && Ticketed(p.workers[w].job, ticketOf);
    }
  }

  lemma DequeuedTaken(p: Jobs.Pool, w: nat, ticketOf: map<Id, nat>, call: Call)
    requires Jobs.Enabled(p, Jobs.Dequeue(w)) && EntriesReach(p) && TakenReaches(p, call) && DeleterOk(p.queue, ticketOf, call) && Took(call)
    ensures TakenReaches(Jobs.Apply(p, Jobs.Dequeue(w)), call)
  {
    var q := Jobs.Apply(p, Jobs.Dequeue(w));
    assert call.known ==> p.queue[0].id != call.id;
    forall v | call.known && Jobs.Holds(q, v, call.id) ensures Jobs.Holds(p, v, call.id) {}
  }

  lemma DequeuedEntries(p: Jobs.Pool, w: nat)
    requires Jobs.Enabled(p, Jobs.Dequeue(w)) && EntriesReach(p) && Jobs.CountsMatch(p)
    requires forall v :: v in p.workers && p.workers[v].Running? ==> p.workers[v].job.id != p.queue[0].id
    ensures EntriesReach(Jobs.Apply(p, Jobs.Dequeue(w)))
  {
    hide Jobs.Holders;
  }

  lemma DequeueTokens(s: State, w: nat)
    requires Jobs.PoolInv(s.pool) && JobsInv(s.pool, s.ticketOf) && DeletersInv(s.pool.queue, s.ticketOf, s.calls)
    requires Jobs.Enabled(s.pool, Jobs.Dequeue(w)) && TokenInv(s.pool, s.calls)
    ensures TokenInv(Jobs.Apply(s.pool, Jobs.Dequeue(w)), s.calls)
  {
    OneInstallEach(s.pool, s.ticketOf);
    assert Jobs.CountsMatch(s.pool);
    hide Jobs.PoolInv, JobsInv, Jobs.CountsMatch, Jobs.Apply, TakenReaches, DeleterOk;
    DequeuedEntries(s.pool, w);
    hide EntriesReach;
    forall c | c in s.calls && Took(s.calls[c]) ensures TakenReaches(Jobs.Apply(s.pool, Jobs.Dequeue(w)), s.calls[c]) {
      assert EntriesReach(s.pool) && DeleterOk(s.pool.queue, s.ticketOf, s.calls[c]);
      DequeuedTaken(s.pool, w, s.ticketOf, s.calls[c]);
    }
  }

  lemma FinishedTaken(p: Jobs.Pool, w: nat, call: Call)
    requires Jobs.Enabled(p, Jobs.Finish(w)) && TakenReaches(p, call) && Took(call)
    ensures TakenReaches(Jobs.Apply(p, Jobs.Finish(w)), call)
  {
    var q := Jobs.Apply(p, Jobs.Finish(w));
    forall v | Jobs.Holds(q, v, call.id) ensures Jobs.Holds(p, v, call.id) && q.workers[v] == p.workers[v] {}
  }

  lemma FinishedEntries(p: Jobs.Pool, w: nat)
    requires Jobs.Enabled(p, Jobs.Finish(w)) && EntriesReach(p) && Jobs.RunningApart(p)
    requires forall v :: v in p.workers && p.workers[v].Running? && v != w ==> p.workers[v].job.id != p.workers[w].job.id
    ensures EntriesReach(Jobs.Apply(p, Jobs.Finish(w)))
  {}

  lemma FinishTokens(s: State, w: nat)
    requires Jobs.PoolInv(s.pool) && JobsInv(s.pool, s.ticketOf)
    requires Jobs.Enabled(s.pool, Jobs.Finish(w)) && TokenInv(s.pool, s.calls)
    ensures TokenInv(Jobs.Apply(s.pool, Jobs.Finish(w)), s.calls)
  {
    OneInstallEach(s.pool, s.ticketOf);
    assert Jobs.RunningApart(s.pool);
    hide Jobs.PoolInv, JobsInv, Jobs.RunningApart, Jobs.Apply, TakenReaches;
    FinishedEntries(s.pool, w);
    hide EntriesReach;
    forall c | c in s.calls && Took(s.calls[c]) ensures TakenReaches(Jobs.Apply(s.pool, Jobs.Finish(w)), s.calls[c]) {
      FinishedTaken(s.pool, w, s.calls[c]);
    }
  }

  lemma ExitTokens(p: Jobs.Pool, x: Jobs.Step)
    requires Jobs.Enabled(p, x) && (x.Quit? || x.Leave?)
    ensures SameTokens(p, Jobs.Apply(p, x))
  {}

  lemma AllTook(calls: map<nat, Call>)
    ensures TookFrom(calls, calls)
  {}

  /** What a worker's step does to the pool. */
  lemma WorkPool(s: State, t: WorkStep)
    requires WorkEnabled(s, t)
    ensures ApplyWork(s, t).calls == s.calls
    ensures match t
      case DequeueJob(w) => Jobs.Enabled(s.pool, Jobs.Dequeue(w)) && ApplyWork(s, t).pool == Jobs.Apply(s.pool, Jobs.Dequeue(w))
      case FinishJob(w) => Jobs.Enabled(s.pool, Jobs.Finish(w)) && ApplyWork(s, t).pool == Jobs.Apply(s.pool, Jobs.Finish(w))
      case QuitWorker(w) => Jobs.Enabled(s.pool, Jobs.Quit(w)) && ApplyWork(s, t).pool == Jobs.Apply(s.pool, Jobs.Quit(w))
      case LeaveWorker(w) => Jobs.Enabled(s.pool, Jobs.Leave(w)) && ApplyWork(s, t).pool == Jobs.Apply(s.pool, Jobs.Leave(w))
      case _ => ApplyWork(s, t).pool == s.pool
  {
    hide UpdateWrite, MarkWrite, FailWrite, AfterUpdate, AfterMark, AfterFail, AfterReload, RowsAfter, ContextDone, Jobs.Apply, Jobs.Enabled;
    if t.FinishJob? { FinishEnabled(s, t.w); }
  }

  lemma WorkTokens(s: State, t: WorkStep)
    requires Inv(s) && WorkEnabled(s, t) && TokenInv(s.pool, s.calls)
    ensures TokenInv(ApplyWork(s, t).pool, ApplyWork(s, t).calls)
  {
    assert Jobs.PoolInv(s.pool) && JobsInv(s.pool, s.ticketOf) && DeletersInv(s.pool.queue, s.ticketOf, s.calls);
    hide Inv, TokenInv, Jobs.PoolInv, JobsInv, DeletersInv, Jobs.Apply, Jobs.Enabled, ApplyWork, WorkEnabled, TookFrom, SameTokens;
    WorkPool(s, t);
    AllTook(s.calls);
    match t
    case DequeueJob(w) => DequeueTokens(s, w);
    case FinishJob(w) => FinishTokens(s, w);
    case QuitWorker(w) => ExitTokens(s.pool, Jobs.Quit(w)); TokensFrame(s.pool, Jobs.Apply(s.pool, Jobs.Quit(w)), s.calls, s.calls);
    case LeaveWorker(w) => ExitTokens(s.pool, Jobs.Leave(w)); TokensFrame(s.pool, Jobs.Apply(s.pool, Jobs.Leave(w)), s.calls, s.calls);
    case _ =>
  }

  // ----- start, stop and the scheduler -----

  lemma StartedTokens(p: Jobs.Pool, n: nat)
    requires Jobs.PoolInv(p) && Jobs.Enabled(p, Jobs.Start(n))
    ensures SameTokens(p, Jobs.Apply(p, Jobs.Start(n)))
  {
    LifecycleFlow.StartFacts(p, n);
    hide Jobs.PoolInv;
  }

  lemma OtherStart(s: State, t: StartStep)
    requires StartEnabled(s, t)
    ensures ApplyStart(s, t).calls == s.calls
    ensures t.StartPool? && Jobs.Enabled(s.pool, Jobs.Start(t.n)) ==> ApplyStart(s, t).pool == Jobs.Apply(s.pool, Jobs.Start(t.n))
    ensures !(t.StartPool? && Jobs.Enabled(s.pool, Jobs.Start(t.n))) ==>
      var q := ApplyStart(s, t).pool;
      q.workers == s.pool.workers && q.cancelled == s.pool.cancelled && q.installCancel == s.pool.installCancel && q.nextToken == s.pool.nextToken
  {}

  lemma StartTokens(s: State, t: StartStep)
    requires Inv(s) && StartEnabled(s, t)
    ensures SameTokens(s.pool, ApplyStart(s, t).pool) && ApplyStart(s, t).calls == s.calls
  {
    assert Jobs.PoolInv(s.pool);
    hide Inv, Jobs.PoolInv, Jobs.Apply, Jobs.Enabled, ApplyStart, StartEnabled;
    OtherStart(s, t);
    if t.StartPool? && Jobs.Enabled(s.pool, Jobs.Start(t.n)) { StartedTokens(s.pool, t.n); }
  }

  lemma StopTokens(s: State, t: StopStep)
    requires StopEnabled(s, t)
    ensures SameTokens(s.pool, ApplyStop(s, t).pool) && ApplyStop(s, t).calls == s.calls
  {}

  lemma StepTokens(s: State, t: Step)
    requires Inv(s) && Enabled(s, t) && Coherent(s.rows) && TokenInv(s.pool, s.calls)
    ensures TokenInv(Apply(s, t).pool, Apply(s, t).calls)
  {
    hide Inv, Coherent, TokenInv, SameTokens, TookFrom;
    hide ApplyCreate, ApplyDelete, ApplyWork, ApplySched, ApplyStart, ApplyStop, CreateEnabled, DeleteEnabled, WorkEnabled, SchedEnabled, StartEnabled, StopEnabled;
    AllTook(s.calls);
    match t
    case Creating(x) => CreateTokens(s, x);
    case Deleting(x) => DeleteTokens(s, x);
    case Installing(x) => WorkTokens(s, x);
    case Scheduling(x) => SchedGate(s, x);
    case Opening(x) => StartTokens(s, x); TokensFrame(s.pool, ApplyStart(s, x).pool, s.calls, s.calls);
    case Stopping(x) => StopTokens(s, x); TokensFrame(s.pool, ApplyStop(s, x).pool, s.calls, s.calls);
  }

  lemma StepsTokens(s: State, t: Step, s': State)
    requires Inv(s) && Steps(s, t, s') && TokenInv(s.pool, s.calls)
    ensures TokenInv(s'.pool, s'.calls)
  {
    hide Inv, Enabled, Apply, Coherent, TokenInv;
    StepTokens(s, t);
  }

  lemma {:induction false} RunTokens(installTimeout: int, states: seq<State>, steps: seq<Step>, n: nat)
    requires IsRun(installTimeout, states, steps) && n < |states|
    ensures TokenInv(states[n].pool, states[n].calls)
  {
    hide Inv, Steps, IsRun;
    RunLength(installTimeout, states, steps);
    if n > 0 {
      hide TokenInv;
      RunTokens(installTimeout, states, steps, n - 1);
      RunInv(installTimeout, states, steps, n - 1);
      RunStep(installTimeout, states, steps, n - 1);
      StepsTokens(states[n - 1], steps[n - 1], states[n]);
    }
  }

  // ----- what that gives -----

  /** Once a delete that saw its id submitted has fired, the context of every install still running for it is done. */
  lemma DeleteCancelsInstalls(installTimeout: int, states: seq<State>, steps: seq<Step>, n: nat, c: nat, w: nat)
    requires IsRun(installTimeout, states, steps) && n < |states|
    requires c in states[n].calls && states[n].calls[c].DeleteWaiting? && states[n].calls[c].known
    requires Jobs.Holds(states[n].pool, w, states[n].calls[c].id)
    ensures states[n].pool.workers[w].token in states[n].pool.cancelled
  {
    RunTokens(installTimeout, states, steps, n);
    assert TakenReaches(states[n].pool, states[n].calls[c]);
  }

  /** A new install starts with a context that is not done, unless Stop has ended them all. */
  lemma FreshContext(installTimeout: int, states: seq<State>, steps: seq<Step>, n: nat, w: nat)
    requires IsRun(installTimeout, states, steps) && n < |steps| == |states| - 1 && steps[n] == Installing(DequeueJob(w))
    ensures w in states[n + 1].pool.workers && states[n + 1].pool.workers[w].Running?
    ensures states[n + 1].pool.workers[w].token !in states[n + 1].pool.cancelled
  {
    RunTokens(installTimeout, states, steps, n);
    RunInv(installTimeout, states, steps, n);
    RunStep(installTimeout, states, steps, n);
    FreshToken(states[n], states[n + 1], w);
  }

  lemma FreshToken(s: State, s': State, w: nat)
    requires Jobs.PoolInv(s.pool) && EntriesReach(s.pool) && Steps(s, Installing(DequeueJob(w)), s')
    ensures w in s'.pool.workers && s'.pool.workers[w].Running? && s'.pool.workers[w].token !in s'.pool.cancelled
  {
    assert Jobs.CountsMatch(s.pool);
    hide Jobs.PoolInv, Coherent, Jobs.CountsMatch, EntriesReach, Jobs.Apply, Jobs.Enabled;
    DequeuePool(s, s', w);
    hide Steps;
    FreshInPool(s.pool, w);
  }

  lemma FreshInPool(p: Jobs.Pool, w: nat)
    requires Jobs.CountsMatch(p) && EntriesReach(p) && Jobs.Enabled(p, Jobs.Dequeue(w))
    ensures var q := Jobs.Apply(p, Jobs.Dequeue(w)); w in q.workers && q.workers[w].Running? && q.workers[w].token !in q.cancelled
  {
    hide Jobs.Holders;
  }

  lemma DequeuePool(s: State, s': State, w: nat)
    requires Steps(s, Installing(DequeueJob(w)), s')
    ensures Jobs.Enabled(s.pool, Jobs.Dequeue(w)) && s'.pool == Jobs.Apply(s.pool, Jobs.Dequeue(w))
  {
    hide Coherent, Jobs.Apply, Jobs.Enabled;
  }

  /** The install's context was not done for good before this step, and is after it. */
  ghost predicate Ends(p: Jobs.Pool, q: Jobs.Pool, w: nat) {
    && w in p.workers && p.workers[w].Running? && w in q.workers && q.workers[w] == p.workers[w]
    && p.workers[w].token !in p.cancelled && q.workers[w].token in q.cancelled
  }

  /** Nobody holds the id at the front, so there is no entry to cancel. */
  lemma FrontHasNoEntry(p: Jobs.Pool, ticketOf: map<Id, nat>)
    requires Jobs.PoolInv(p) && JobsInv(p, ticketOf) && p.queue != []
    ensures p.queue[0].id !in p.installCancel
  {
    OneInstallEach(p, ticketOf);
    assert Jobs.CountsMatch(p);
    hide Jobs.PoolInv, JobsInv;
    assert Jobs.Holders(p, p.queue[0].id) == {};
  }

  lemma DequeueEndsNone(s: State, v: nat, w: nat)
    requires Jobs.PoolInv(s.pool) && JobsInv(s.pool, s.ticketOf) && Jobs.Enabled(s.pool, Jobs.Dequeue(v))
    ensures !Ends(s.pool, Jobs.Apply(s.pool, Jobs.Dequeue(v)), w)
  {
    FrontHasNoEntry(s.pool, s.ticketOf);
    hide Jobs.PoolInv, JobsInv;
  }

  lemma FinishEndsNone(p: Jobs.Pool, v: nat, w: nat)
    requires Jobs.RunningApart(p) && Jobs.Enabled(p, Jobs.Finish(v))
    ensures !Ends(p, Jobs.Apply(p, Jobs.Finish(v)), w)
  {}

  lemma WorkEndsNone(s: State, t: WorkStep, w: nat)
    requires Inv(s) && WorkEnabled(s, t)
    ensures !Ends(s.pool, ApplyWork(s, t).pool, w)
  {
    assert Jobs.PoolInv(s.pool) && JobsInv(s.pool, s.ticketOf);
    assert Jobs.RunningApart(s.pool);
    hide Inv, Jobs.PoolInv, JobsInv, Jobs.RunningApart, Jobs.Apply, Jobs.Enabled, ApplyWork, WorkEnabled, Ends, SameTokens;
    WorkPool(s, t);
    match t
    case DequeueJob(v) => DequeueEndsNone(s, v, w);
    case FinishJob(v) => FinishEndsNone(s.pool, v, w);
    case QuitWorker(v) => ExitTokens(s.pool, Jobs.Quit(v)); NothingEnds(s.pool, Jobs.Apply(s.pool, Jobs.Quit(v)), w);
    case LeaveWorker(v) => ExitTokens(s.pool, Jobs.Leave(v)); NothingEnds(s.pool, Jobs.Apply(s.pool, Jobs.Leave(v)), w);
    case _ => NothingEnds(s.pool, s.pool, w);
  }

  lemma DeleteEnds(s: State, t: DeleteStep, w: nat)
    requires DeleteEnabled(s, t) && TokenInv(s.pool, s.calls) && Ends(s.pool, ApplyDelete(s, t).pool, w)
    ensures t.FireCancel? && t.c in s.calls && s.calls[t.c].DeleteTaken? && s.calls[t.c].id == s.pool.workers[w].job.id
  {
    if t.FireCancel? {
      assert TakenReaches(s.pool, s.calls[t.c]);
    } else if !t.TakeJobs? {
      SlotLeaves(s, t);
    }
  }

  lemma CreateEndsNone(s: State, t: CreateStep, w: nat)
    requires CreateEnabled(s, t) && Coherent(s.rows)
    ensures !Ends(s.pool, ApplyCreate(s, t).pool, w)
  {
    CreatePool(s, t);
    hide Coherent, ApplyCreate, CreateEnabled;
    NothingEnds(s.pool, ApplyCreate(s, t).pool, w);
  }

  /** No step ends the context of one running install but a delete of its workspace; Stop ends all of them at once. */
  lemma OnlyDeletesCancel(installTimeout: int, states: seq<State>, steps: seq<Step>, n: nat, w: nat)
    requires IsRun(installTimeout, states, steps) && n < |steps| == |states| - 1 && Ends(states[n].pool, states[n + 1].pool, w)
    ensures steps[n].Deleting? && steps[n].delete.FireCancel?
    ensures var c := steps[n].delete.c;
      c in states[n].calls && states[n].calls[c].DeleteTaken? && states[n].calls[c].id == states[n].pool.workers[w].job.id
  {
    RunTokens(installTimeout, states, steps, n);
    RunInv(installTimeout, states, steps, n);
    RunStep(installTimeout, states, steps, n);
    StepEnds(states[n], steps[n], states[n + 1], w);
  }

  lemma StepEnds(s: State, t: Step, s': State, w: nat)
    requires Inv(s) && TokenInv(s.pool, s.calls) && Steps(s, t, s') && Ends(s.pool, s'.pool, w)
    ensures t.Deleting? && t.delete.FireCancel?
    ensures t.delete.c in s.calls && s.calls[t.delete.c].DeleteTaken? && s.calls[t.delete.c].id == s.pool.workers[w].job.id
  {
    hide Inv, Coherent, TokenInv, SameTokens, Ends, Calms;
    hide ApplyCreate, ApplyDelete, ApplyWork, ApplySched, ApplyStart, ApplyStop, CreateEnabled, DeleteEnabled, WorkEnabled, SchedEnabled, StartEnabled, StopEnabled;
    match t
    case Creating(x) => CreateEndsNone(s, x, w);
    case Deleting(x) => DeleteEnds(s, x, w);
    case Installing(x) => WorkEndsNone(s, x, w);
    case Scheduling(x) => SchedGate(s, x); NothingEnds(s.pool, s'.pool, w);
    case Opening(x) => StartTokens(s, x); NothingEnds(s.pool, s'.pool, w);
    case Stopping(x) => StopTokens(s, x); NothingEnds(s.pool, s'.pool, w);
  }

  lemma NothingEnds(p: Jobs.Pool, q: Jobs.Pool, w: nat)
    requires SameTokens(p, q) || q == p
    ensures !Ends(p, q, w)
  {}
}
