/** A clean shutdown: every job is drained, and no row is left of a refused submit or of a job a delete dropped. */
module LifecycleShutdown {
  import opened Common
  import opened Workspaces
  import opened Lifecycle
  import opened LifecycleInv
  import opened LifecycleTheorems
  import opened LifecycleHistory
  import LifecycleCalls
  import Jobs = InstallPool

  // ----- where a stored row comes from -----

  ghost predicate Made(calls: map<nat, Call>, id: Id) {
    exists c :: c in calls && Creates(calls[c], id)
  }

  ghost predicate Leaving(calls: map<nat, Call>, id: Id) {
    exists c :: c in calls && Deletes(calls[c], id)
  }

  /** Its create is still at work, or it was submitted and, if a delete dropped the job, such a delete is at work. */
  ghost predicate Traced(calls: map<nat, Call>, ticketOf: map<Id, nat>, dropped: set<nat>, id: Id) {
    Made(calls, id) || (id in ticketOf && (ticketOf[id] in dropped ==> Leaving(calls, id)))
  }

  /** The repository was not closed over the heads of calls still at work. */
  ghost predicate InOrder(closed: bool, stop: Stopper) { closed ==> Clean(stop) }

  ghost predicate RowsTraced(s: State) {
    InOrder(s.repoClosed, s.stop) ==> forall id :: id in s.rows ==> Traced(s.calls, s.ticketOf, s.pool.dropped, id)
  }

  /** What a step that is no call's may do. */
  ghost predicate Behind(s: State, s': State) {
    && s'.calls == s.calls && s'.ticketOf == s.ticketOf && s'.pool.dropped == s.pool.dropped
    && s'.rows.Keys <= s.rows.Keys
    && (InOrder(s'.repoClosed, s'.stop) ==> InOrder(s.repoClosed, s.stop))
  }

  lemma BehindTraced(s: State, s': State)
    requires RowsTraced(s) && Behind(s, s')
    ensures RowsTraced(s')
  {}

  /** One call's slot changes: what this asks of the slot for an id that stays stored. */
  ghost predicate Handed(s: State, s': State, c: nat, id: Id) {
    && (id in s.ticketOf ==> id in s'.ticketOf)
    && (c in s.calls && Creates(s.calls[c], id) ==>
          (c in s'.calls && Creates(s'.calls[c], id)) || (id in s'.ticketOf && s'.ticketOf[id] !in s'.pool.dropped))
    && (id in s.ticketOf && s'.ticketOf[id] in s'.pool.dropped && (s.ticketOf[id] in s.pool.dropped ==> c in s.calls && Deletes(s.calls[c], id)) ==>
          c in s'.calls && Deletes(s'.calls[c], id))
  }

  lemma SlotTraced(s: State, s': State, c: nat, id: Id)
    requires OnlySlot(s.calls, s'.calls, c) && Handed(s, s', c, id)
    requires Traced(s.calls, s.ticketOf, s.pool.dropped, id)
    ensures Traced(s'.calls, s'.ticketOf, s'.pool.dropped, id)
  {
    if d :| d in s.calls && Creates(s.calls[d], id) {
      if d != c { assert d in s'.calls && Creates(s'.calls[d], id); }
    } else if s'.ticketOf[id] in s'.pool.dropped && s.ticketOf[id] in s.pool.dropped {
      var d :| d in s.calls && Deletes(s.calls[d], id);
      if d != c { assert d in s'.calls && Deletes(s'.calls[d], id); }
    }
  }

  /** A slot that neither creates nor deletes hands nothing on. */
  lemma IdleHands(s: State, s': State, c: nat, id: Id)
    requires c in s.calls ==> !Creates(s.calls[c], id) && !Deletes(s.calls[c], id)
    requires s'.ticketOf == s.ticketOf && s'.pool.dropped == s.pool.dropped
    ensures Handed(s, s', c, id)
  {}

  /** The slot hands every id on that stays stored, and an id that was not stored has its create. */
  ghost predicate HandsOn(s: State, s': State, c: nat) {
    && OnlySlot(s.calls, s'.calls, c)
    && forall id :: id in s'.rows ==> (id in s.rows && Handed(s, s', c, id)) || Made(s'.calls, id)
  }

  lemma HandedTraced(s: State, s': State, c: nat)
    requires !s.repoClosed && RowsTraced(s) && HandsOn(s, s', c)
    ensures RowsTraced(s')
  {
    hide Handed, OnlySlot, Made, Traced;
    forall id | id in s'.rows ensures Traced(s'.calls, s'.ticketOf, s'.pool.dropped, id) {
      if !Made(s'.calls, id) { SlotTraced(s, s', c, id); } else { MadeTraced(s', id); }
    }
  }

  lemma MadeTraced(s: State, id: Id)
    requires Made(s.calls, id)
    ensures Traced(s.calls, s.ticketOf, s.pool.dropped, id)
  {}

  // ----- the steps of a create -----

  lemma SameTickets(s: State, c: nat, call: Call, next: Option<Call>)
    ensures AddCall(s, c, call).ticketOf == s.ticketOf && Proceed(s, c, next).ticketOf == s.ticketOf
    ensures AddCall(s, c, call).rows == s.rows && Proceed(s, c, next).rows == s.rows
    ensures DropCall(s, c).ticketOf == s.ticketOf && DropCall(s, c).rows == s.rows
  {}

  lemma InsertHands(s: State, c: nat, x: Id, plugins: seq<Attached>, now: int)
    requires CreateEnabled(s, Insert(c, x, plugins, now)) && OnlySlot(s.calls, ApplyInsert(s, c, x, plugins, now).calls, c)
    ensures HandsOn(s, ApplyInsert(s, c, x, plugins, now), c)
  {
    hide AliasTaken, OnlySlot, Handed;
    var s' := ApplyInsert(s, c, x, plugins, now);
    forall id | id in s'.rows ensures (id in s.rows && Handed(s, s', c, id)) || Made(s'.calls, id) {
      if id in s.rows { IdleHands(s, s', c, id); } else { assert s'.calls[c] == CreateInserted(id); }
    }
  }

  lemma SubmitFacts(s: State, c: nat)
    requires CreateEnabled(s, SubmitJob(c))
    ensures var s', id := ApplySubmit(s, c), s.calls[c].id;
      && s'.rows == s.rows && s'.pool.dropped == s.pool.dropped
      && if Jobs.Accepts(s.pool) then s'.ticketOf == s.ticketOf[id := s.pool.nextTicket]
         else s'.ticketOf == s.ticketOf && c in s'.calls && s'.calls[c] == CreateRejected(id)
  {
    var id := s.calls[c].id;
    if Jobs.Accepts(s.pool) { OnlyTakingDrops(s.pool, Jobs.Submit(id)); }
    SubmitGate(s, c);
    hide Jobs.Apply, Jobs.Accepts, Jobs.Enabled, DropCall;
    SubmitTickets(s, c);
  }

  lemma OnlyTakingDrops(p: Jobs.Pool, x: Jobs.Step)
    requires Jobs.Enabled(p, x) && !x.TakeQueued?
    ensures Jobs.Apply(p, x).dropped == p.dropped
  {}

  lemma SubmitTickets(s: State, c: nat)
    requires CreateEnabled(s, SubmitJob(c))
    ensures var s', id := ApplySubmit(s, c), s.calls[c].id;
      && s'.rows == s.rows
      && if Jobs.Accepts(s.pool) then s'.ticketOf == s.ticketOf[id := s.pool.nextTicket]
         else s'.ticketOf == s.ticketOf && c in s'.calls && s'.calls[c] == CreateRejected(id)
  {
    hide Jobs.Apply, DropCall;
    var id := s.calls[c].id;
    if Jobs.Accepts(s.pool) {
      SameTickets(s.(ticketOf := s.ticketOf[id := s.pool.nextTicket], pool := Jobs.Apply(s.pool, Jobs.Submit(id))), c, OtherCall, None);
    } else {
      assert ApplySubmit(s, c) == s.(calls := s.calls[c := CreateRejected(id)]);
    }
  }

  lemma SubmitHands(s: State, c: nat)
    requires Jobs.Settled(s.pool) && CreateEnabled(s, SubmitJob(c)) && OnlySlot(s.calls, ApplySubmit(s, c).calls, c)
    ensures HandsOn(s, ApplySubmit(s, c), c)
  {
    hide OnlySlot, Jobs.Queued, Jobs.Underway, ApplySubmit, CreatorOk;
    SubmitFacts(s, c);
    assert s.pool.nextTicket !in s.pool.dropped;
    hide Jobs.Settled;
    var d := ApplySubmit(s, c);
    assert s.calls[c].CreateInserted?;
    hide CreateEnabled;
    forall id | id in s.rows ensures Handed(s, d, c, id) {}
    hide Handed;
  }

  lemma RemoveFacts(s: State, c: nat, x: Id)
    requires !s.repoClosed
    ensures var s' := ApplyRemove(s, c, x);
      && s'.rows.Keys == s.rows.Keys - {x}
      && s'.ticketOf == s.ticketOf && s'.pool == s.pool
  {}

  /** A call whose id is not stored has nothing to hand on. */
  lemma GoneHands(s: State, s': State, c: nat, x: Id)
    requires OnlySlot(s.calls, s'.calls, c) && s'.rows.Keys <= s.rows.Keys - {x}
    requires s'.ticketOf == s.ticketOf && s'.pool.dropped == s.pool.dropped
    requires c in s.calls && forall id :: Creates(s.calls[c], id) || Deletes(s.calls[c], id) ==> id == x
    ensures HandsOn(s, s', c)
  {
    hide OnlySlot, Creates, Deletes;
  }

  lemma RemoveHands(s: State, c: nat, x: Id)
    requires !s.repoClosed && c in s.calls && forall id :: Creates(s.calls[c], id) || Deletes(s.calls[c], id) ==> id == x
    ensures HandsOn(s, ApplyRemove(s, c, x), c)
  {
    hide OnlySlot, HandsOn, ApplyRemove, Creates, Deletes;
    RemoveSlot(s, c, x);
    RemoveFacts(s, c, x);
    GoneHands(s, ApplyRemove(s, c, x), c, x);
  }

  lemma UndoHands(s: State, c: nat)
    requires !s.repoClosed && CreateEnabled(s, UndoInsert(c))
    ensures HandsOn(s, ApplyRemove(s, c, s.calls[c].id), c)
  {
    hide HandsOn, ApplyRemove;
    RemoveHands(s, c, s.calls[c].id);
  }

  lemma IdleCreate(s: State, t: CreateStep)
    requires CreateEnabled(s, t) && Coherent(s.rows) && !t.Insert? && !t.SubmitJob? && !t.UndoInsert?
    ensures var s' := ApplyCreate(s, t);
      && s'.ticketOf == s.ticketOf && s'.pool == s.pool && s'.rows == s.rows
      && forall id :: t.c in s.calls ==> !Creates(s.calls[t.c], id) && !Deletes(s.calls[t.c], id)
  {
    CreateGate(s, t);
    hide Coherent, Scanned, AddCall, DropCall, Proceed, ApplyLock;
    match t
    case BeginCreate(c, req) => SameTickets(s, c, CreateBegun(req), None);
    case BeginOther(c) => SameTickets(s, c, OtherCall, None);
    case EndOther(c) => SameTickets(s, c, OtherCall, None);
    case AbortCreate(c) => SameTickets(s, c, OtherCall, None);
    case ScanNextPage(c) => SameTickets(s, c, OtherCall, Scanned(s, s.calls[c].req, s.calls[c].cursor));
    case LockCreate(c) => LockTickets(s, c);
  }

  lemma LockTickets(s: State, c: nat)
    requires c in s.calls && s.calls[c].CreateBegun?
    ensures ApplyLock(s, c).ticketOf == s.ticketOf && ApplyLock(s, c).rows == s.rows
  {}

  lemma IdleHandsOn(s: State, s': State, c: nat)
    requires OnlySlot(s.calls, s'.calls, c) && s'.rows.Keys <= s.rows.Keys
    requires s'.ticketOf == s.ticketOf && s'.pool.dropped == s.pool.dropped
    requires forall id :: id in s'.rows && c in s.calls ==> !Creates(s.calls[c], id) && !Deletes(s.calls[c], id)
    ensures HandsOn(s, s', c)
  {}

  lemma CreateHands(s: State, t: CreateStep)
    requires Inv(s) && !s.repoClosed && CreateEnabled(s, t) && Coherent(s.rows)
    ensures HandsOn(s, ApplyCreate(s, t), t.c)
  {
    CreateSlot(s, t);
    assert Jobs.Settled(s.pool) by { hide TableInv; }
    hide Inv, OnlySlot, HandsOn, Coherent, Jobs.Settled, ApplyInsert, ApplySubmit, ApplyRemove, Scanned, Creates, Deletes;
    match t
    case Insert(c, x, plugins, now) => InsertHands(s, c, x, plugins, now);
    case SubmitJob(c) => SubmitHands(s, c);
    case UndoInsert(c) => UndoHands(s, c);
    case _ => hide ApplyCreate; IdleCreate(s, t); IdleHandsOn(s, ApplyCreate(s, t), t.c);
  }

  // ----- the steps of a delete -----

  lemma TakeHands(s: State, c: nat)
    requires JobsInv(s.pool, s.ticketOf) && DeleteEnabled(s, TakeJobs(c)) && OnlySlot(s.calls, ApplyTake(s, c).calls, c)
    ensures HandsOn(s, ApplyTake(s, c), c)
  {
    hide OnlySlot, Jobs.Without;
    var s', x := ApplyTake(s, c), s.calls[c].id;
    forall id | id in s.ticketOf && s.ticketOf[id] in s'.pool.dropped && s.ticketOf[id] !in s.pool.dropped ensures id == x {
      var j :| j in s.pool.queue && j.id == x && j.ticket == s.ticketOf[id];
      assert Ticketed(j, s.ticketOf);
    }
  }

  lemma GiveUpHands(s: State, c: nat)
    requires Jobs.PoolInv(s.pool) && JobsInv(s.pool, s.ticketOf) && DeleteEnabled(s, GiveUpWait(c)) && OnlySlot(s.calls, DropCall(s, c).calls, c)
    ensures HandsOn(s, DropCall(s, c), c)
  {
    LifecycleCalls.RunningNotDropped(s.pool, s.ticketOf, s.calls[c].id);
    hide OnlySlot, Jobs.PoolInv, JobsInv;
  }

  /** The delete goes on with its id. */
  lemma GoesOn(s: State, s': State, c: nat)
    requires OnlySlot(s.calls, s'.calls, c) && s'.rows.Keys <= s.rows.Keys
    requires s'.ticketOf == s.ticketOf && s'.pool.dropped == s.pool.dropped
    requires c in s.calls && c in s'.calls
    requires forall id :: !Creates(s.calls[c], id) && (Deletes(s.calls[c], id) ==> Deletes(s'.calls[c], id))
    ensures HandsOn(s, s', c)
  {
    hide OnlySlot, Creates, Deletes;
  }

  lemma WaitHands(s: State, t: DeleteStep)
    requires DeleteEnabled(s, t) && (t.FireCancel? || t.PassIdle?) && OnlySlot(s.calls, ApplyDelete(s, t).calls, t.c)
    ensures HandsOn(s, ApplyDelete(s, t), t.c)
  {
    hide OnlySlot, HandsOn;
    GoesOn(s, ApplyDelete(s, t), t.c);
  }

  lemma LookUpHands(s: State, c: nat)
    requires !s.repoClosed && DeleteEnabled(s, LookUp(c)) && OnlySlot(s.calls, ApplyDelete(s, LookUp(c)).calls, c)
    ensures HandsOn(s, ApplyDelete(s, LookUp(c)), c)
  {
    hide OnlySlot, HandsOn;
    var s', x := ApplyDelete(s, LookUp(c)), s.calls[c].id;
    if x in s.rows { GoesOn(s, s', c); } else { GoneHands(s, s', c, x); }
  }

  lemma BeginHands(s: State, c: nat, x: Id)
    requires DeleteEnabled(s, BeginDelete(c, x)) && OnlySlot(s.calls, AddCall(s, c, DeleteBegun(x)).calls, c)
    ensures HandsOn(s, AddCall(s, c, DeleteBegun(x)), c)
  {
    hide OnlySlot, HandsOn, AddCall;
    AddGate(s, c, DeleteBegun(x));
    SameTickets(s, c, DeleteBegun(x), None);
    IdleHandsOn(s, AddCall(s, c, DeleteBegun(x)), c);
  }

  lemma CheckHands(s: State, c: nat, next: Option<Call>)
    requires DeleteEnabled(s, CheckOpen(c)) && OnlySlot(s.calls, Proceed(s, c, next).calls, c)
    ensures HandsOn(s, Proceed(s, c, next), c)
  {
    hide OnlySlot, HandsOn, Proceed;
    ProceedGate(s, c, next);
    SameTickets(s, c, OtherCall, next);
    IdleHandsOn(s, Proceed(s, c, next), c);
  }

  lemma RowHands(s: State, c: nat)
    requires !s.repoClosed && DeleteEnabled(s, RemoveRow(c))
    ensures HandsOn(s, ApplyDelete(s, RemoveRow(c)), c)
  {
    hide HandsOn, ApplyRemove;
    RemoveHands(s, c, s.calls[c].id);
  }

  lemma DeleteHands(s: State, t: DeleteStep)
    requires Inv(s) && !s.repoClosed && DeleteEnabled(s, t)
    ensures HandsOn(s, ApplyDelete(s, t), t.c)
  {
    DeleteSlot(s, t);
    assert Jobs.PoolInv(s.pool) && JobsInv(s.pool, s.ticketOf);
    hide Inv, OnlySlot, HandsOn, Jobs.PoolInv, JobsInv, ApplyTake, ApplyFire, ApplyPass, ApplyRemove, DropCall, AddCall, Proceed;
    match t
    case TakeJobs(c) => TakeHands(s, c);
    case GiveUpWait(c) => GiveUpHands(s, c);
    case FireCancel(_) => WaitHands(s, t);
    case PassIdle(_) => WaitHands(s, t);
    case LookUp(c) => LookUpHands(s, c);
    case RemoveRow(c) => RowHands(s, c);
    case BeginDelete(c, x) => BeginHands(s, c, x);
    case CheckOpen(c) => CheckHands(s, c, if s.pool.stopped then None else Some(DeleteChecked(s.calls[c].id)));
  }

  // ----- the other steps -----

  lemma WorkBehind(s: State, t: WorkStep)
    requires Inv(s) && WorkEnabled(s, t)
    ensures Behind(s, ApplyWork(s, t))
  {
    WorkerStepTouchesOnlyInit(s, t, "");
    WorkFrame(s, t);
    WorkTickets(s, t);
    hide Inv, ApplyWork, WorkEnabled;
  }

  lemma WorkTickets(s: State, t: WorkStep)
    requires WorkEnabled(s, t)
    ensures var d := ApplyWork(s, t); d.calls == s.calls && d.ticketOf == s.ticketOf && d.pool.dropped == s.pool.dropped && d.stop == s.stop
  {
    WorkGate(s, t, "");
    hide UpdateWrite, MarkWrite, FailWrite, AfterUpdate, AfterMark, AfterFail, AfterReload, RowsAfter, ContextDone, Calms, Jobs.Apply, Jobs.Enabled;
    match t
    case DequeueJob(w) => OnlyTakingDrops(s.pool, Jobs.Dequeue(w));
    case QuitWorker(w) => OnlyTakingDrops(s.pool, Jobs.Quit(w));
    case LeaveWorker(w) => OnlyTakingDrops(s.pool, Jobs.Leave(w));
    case FinishJob(w) => FinishEnabled(s, w); OnlyTakingDrops(s.pool, Jobs.Finish(w));
    case _ =>
  }

  lemma SchedBehind(s: State, t: SchedStep)
    requires Inv(s) && SchedEnabled(s, t) && Coherent(s.rows)
    ensures Behind(s, ApplySched(s, t))
  {
    SchedGate(s, t);
    SchedFrame(s, t);
    SchedNarrows(s, t);
    SchedTickets(s, t);
    hide Inv, ApplySched, SchedEnabled, Coherent, SameFixed, StatusAgrees;
  }

  lemma SchedTickets(s: State, t: SchedStep)
    requires SchedEnabled(s, t) && Coherent(s.rows)
    ensures ApplySched(s, t).ticketOf == s.ticketOf
  {
    hide Coherent, ListedSched, RecordedProbes, JudgedRows, RecordedRows, RowsAfter;
  }

  lemma StartBehind(s: State, t: StartStep)
    requires StartEnabled(s, t)
    ensures Behind(s, ApplyStart(s, t))
  {}

  lemma StopBehind(s: State, t: StopStep)
    requires StopEnabled(s, t)
    ensures Behind(s, ApplyStop(s, t))
  {}

  // ----- runs -----

  /** After a clean close no call is at work. */
  lemma CallsAreOpen(s: State, c: nat)
    requires Inv(s) && InOrder(s.repoClosed, s.stop) && (c in s.calls || OpenGuard(s))
    ensures !s.repoClosed
  {
    hide TableInv, IdsInv, Jobs.PoolInv, JobsInv, PhasesInv, CachesInv, ProbesInv, CreatorsInv, DeletersInv, OwnersInv, FenceInv, SchedGone, PoolDrained;
  }

  lemma CallerOpen(s: State, t: Step)
    requires Enabled(s, t) && (t.Creating? || t.Deleting?)
    ensures var c := if t.Creating? then t.create.c else t.delete.c; c in s.calls || OpenGuard(s)
  {}

  lemma StepTraced(s: State, t: Step)
    requires Inv(s) && Enabled(s, t) && Coherent(s.rows) && RowsTraced(s)
    ensures RowsTraced(Apply(s, t))
  {
    hide Inv, Coherent, RowsTraced, Behind, HandsOn;
    hide ApplyCreate, ApplyDelete, ApplyWork, ApplySched, ApplyStart, ApplyStop, CreateEnabled, DeleteEnabled, WorkEnabled, SchedEnabled, StartEnabled, StopEnabled;
    match t
    case Creating(x) => CallTraced(s, t);
    case Deleting(x) => CallTraced(s, t);
    case Installing(x) => WorkBehind(s, x); BehindTraced(s, ApplyWork(s, x));
    case Scheduling(x) => SchedBehind(s, x); BehindTraced(s, ApplySched(s, x));
    case Opening(x) => StartBehind(s, x); BehindTraced(s, ApplyStart(s, x));
    case Stopping(x) => StopBehind(s, x); BehindTraced(s, ApplyStop(s, x));
  }

  /** Only a call made before the close is at work after it, and then the close was not clean. */
  lemma CallTraced(s: State, t: Step)
    requires Inv(s) && Enabled(s, t) && Coherent(s.rows) && RowsTraced(s) && (t.Creating? || t.Deleting?)
    ensures RowsTraced(Apply(s, t))
  {
    var c := if t.Creating? then t.create.c else t.delete.c;
    CallerOpen(s, t);
    StepInOrder(s, t);
    hide Inv, Coherent, HandsOn, Traced, Clean;
    hide ApplyCreate, ApplyDelete, CreateEnabled, DeleteEnabled;
    if InOrder(s.repoClosed, s.stop) {
      assert !s.repoClosed by { CallsAreOpen(s, c); }
      hide RowsTraced;
      if t.Creating? { CreateHands(s, t.create); } else { DeleteHands(s, t.delete); }
      HandedTraced(s, Apply(s, t), c);
    }
  }

  lemma StepInOrder(s: State, t: Step)
    requires Inv(s) && Enabled(s, t) && Coherent(s.rows)
    ensures InOrder(Apply(s, t).repoClosed, Apply(s, t).stop) ==> InOrder(s.repoClosed, s.stop)
  {
    StepLater(s, t);
    hide Inv, Coherent, Calms, Clean;
    hide ApplyCreate, ApplyDelete, ApplyWork, ApplySched, ApplyStart, ApplyStop, CreateEnabled, DeleteEnabled, WorkEnabled, SchedEnabled, StartEnabled, StopEnabled;
    match t
    case Creating(x) => CreateGate(s, x);
    case Deleting(x) => DeleteGate(s, x, "");
    case Installing(x) => WorkBehind(s, x);
    case Scheduling(x) => SchedBehind(s, x);
    case Opening(x) => StartBehind(s, x);
    case Stopping(x) => StopBehind(s, x);
  }

  lemma StepsTraced(s: State, t: Step, s': State)
    requires Inv(s) && Steps(s, t, s') && RowsTraced(s)
    ensures RowsTraced(s')
  {
    hide Inv, Enabled, Apply, Coherent, RowsTraced;
    StepTraced(s, t);
  }

  lemma {:induction false} RunTraced(installTimeout: int, states: seq<State>, steps: seq<Step>, n: nat)
    requires IsRun(installTimeout, states, steps) && n < |states|
    ensures RowsTraced(states[n])
  {
    hide Inv, Steps, IsRun;
    RunLength(installTimeout, states, steps);
    if n > 0 {
      hide RowsTraced;
      RunTraced(installTimeout, states, steps, n - 1);
      RunInv(installTimeout, states, steps, n - 1);
      RunStep(installTimeout, states, steps, n - 1);
      StepsTraced(states[n - 1], steps[n - 1], states[n]);
    }
  }

  /** With no call left and the pool drained, a stored row was submitted and its install has finished. */
  lemma TracedIsFinished(s: State)
    requires Inv(s) && RowsTraced(s) && InOrder(s.repoClosed, s.stop) && s.calls == map[]
    requires forall t: nat :: t < s.pool.nextTicket ==> t in s.pool.finished || t in s.pool.dropped
    ensures forall id :: id in s.rows ==> id in s.ticketOf && s.ticketOf[id] in s.pool.finished && s.ticketOf[id] !in s.pool.dropped
  {
    hide TableInv, IdsInv, PhasesInv, CachesInv, ProbesInv, CallsInv, CreatorsInv, DeletersInv, OwnersInv, FenceInv, StopInv;
    hide Jobs.Ordered, Jobs.Settled, Jobs.CountsMatch, Jobs.PoolCounted;
    forall id | id in s.rows
      ensures id in s.ticketOf && s.ticketOf[id] in s.pool.finished && s.ticketOf[id] !in s.pool.dropped
    {
      assert Traced(s.calls, s.ticketOf, s.pool.dropped, id);
      assert !Leaving(s.calls, id) && !Made(s.calls, id);
    }
  }

  /**
   When the Stop that performs the shutdown returns nil: no API call is in flight, all workers and the scheduler
   loop are gone, every job ever accepted has finished or was dropped by a delete, and every row left is settled,
   was submitted, and its install has finished. So no row is left in init, none of a refused submit, and none
   whose job a delete dropped.
   */
  lemma CleanStopLeavesNoOrphan(installTimeout: int, states: seq<State>, steps: seq<Step>, n: nat)
    requires IsRun(installTimeout, states, steps) && n < |states| && states[n].stop == Ended(true)
    ensures var s := states[n];
      && s.repoClosed && s.calls == map[]
      && s.pool.queue == [] && (forall w :: w in s.pool.workers ==> s.pool.workers[w].Gone?)
      && (forall t: nat :: t < s.pool.nextTicket ==> t in s.pool.finished || t in s.pool.dropped)
      && SchedGone(s.sched, s.schedStopped)
      && forall id :: id in s.rows ==>
           && (s.rows[id].status == Healthy || s.rows[id].status == Failed)
           && id in s.ticketOf && s.ticketOf[id] in s.pool.finished && s.ticketOf[id] !in s.pool.dropped
  {
    RunInv(installTimeout, states, steps, n);
    RunTraced(installTimeout, states, steps, n);
    hide IsRun;
    var s := states[n];
    assert s.calls.Keys == {} by { assert |s.calls.Keys| == |s.calls|; }
    DrainedPool(s.pool);
    TracedIsFinished(s);
    forall id | id in s.rows ensures s.rows[id].status == Healthy || s.rows[id].status == Failed {
      assert StatusAgrees(s.rows[id]);
    }
  }

  /** Until the workers of a stopped controller are gone, one of them can take its next step. */
  lemma DrainCanMove(s: State) returns (t: WorkStep)
    requires Inv(s) && s.pool.started && s.pool.stopped && s.pool.doneCloses == 0
    ensures WorkEnabled(s, t)
  {
    hide TableInv, IdsInv, JobsInv, CachesInv, ProbesInv, CallsInv, CreatorsInv, DeletersInv, OwnersInv, FenceInv, StopInv;
    var x := Jobs.DrainCanMove(s.pool);
    hide Jobs.PoolInv;
    match x
    case Dequeue(w) => t := DequeueJob(w);
    case Quit(w) => t := QuitWorker(w);
    case Leave(w) => t := LeaveWorker(w);
    case Finish(w) => t := InstallCanMove(s, w);
  }

  // ----- the same by history -----

  /** Tickets given out and jobs dropped are kept. */
  ghost predicate Remains(s: State, s': State) {
    && (forall id :: id in s.ticketOf ==> id in s'.ticketOf && s'.ticketOf[id] == s.ticketOf[id])
    && s.pool.dropped <= s'.pool.dropped
  }

  lemma FreshTicket(s: State, c: nat)
    requires Inv(s) && c in s.calls && s.calls[c].CreateInserted?
    ensures s.calls[c].id in s.issued && s.calls[c].id !in s.ticketOf
  {
    assert CreatorOk(s.rows, s.issued, s.ticketOf, s.calls[c]);
  }

  lemma SubmitRemains(s: State, c: nat)
    requires Inv(s) && CreateEnabled(s, SubmitJob(c))
    ensures Remains(s, ApplySubmit(s, c))
  {
    hide Inv, ApplySubmit, Jobs.Accepts;
    FreshTicket(s, c);
    SubmitFacts(s, c);
    hide CreateEnabled;
    var id, s' := s.calls[c].id, ApplySubmit(s, c);
    assert s'.ticketOf == s.ticketOf || s'.ticketOf == s.ticketOf[id := s.pool.nextTicket];
  }

  lemma CreateRemains(s: State, t: CreateStep)
    requires Inv(s) && CreateEnabled(s, t) && Coherent(s.rows)
    ensures Remains(s, ApplyCreate(s, t))
  {
    hide Inv, Coherent, Remains, ApplyInsert, ApplySubmit, ApplyRemove, ApplyLock, AddCall, DropCall, Proceed, Scanned;
    match t
    case SubmitJob(c) => SubmitRemains(s, c);
    case Insert(c, x, plugins, now) => InsertTickets(s, c, x, plugins, now); InsertGate(s, c, x, plugins, now); SameRemains(s, ApplyCreate(s, t));
    case UndoInsert(c) => RemoveTickets(s, c, s.calls[c].id); SameRemains(s, ApplyCreate(s, t));
    case _ => IdleCreate(s, t); hide ApplyCreate; SameRemains(s, ApplyCreate(s, t));
  }

  lemma InsertTickets(s: State, c: nat, x: Id, plugins: seq<Attached>, now: int)
    requires c in s.calls && s.calls[c].CreateReady?
    ensures ApplyInsert(s, c, x, plugins, now).ticketOf == s.ticketOf
  {
    hide InsertRow, NewRow;
  }

  lemma RemoveTickets(s: State, c: nat, x: Id)
    ensures ApplyRemove(s, c, x).ticketOf == s.ticketOf && ApplyRemove(s, c, x).pool == s.pool
  {
    hide RowsAfter;
  }

  lemma SameRemains(s: State, s': State)
    requires s'.ticketOf == s.ticketOf && s.pool.dropped <= s'.pool.dropped
    ensures Remains(s, s')
  {}

  lemma DeleteRemains(s: State, t: DeleteStep)
    requires DeleteEnabled(s, t)
    ensures Remains(s, ApplyDelete(s, t))
  {
    hide Remains, AddCall, Proceed, DropCall, ApplyRemove, Jobs.Without;
    match t
    case BeginDelete(c, x) => AddGate(s, c, DeleteBegun(x)); SameTickets(s, c, DeleteBegun(x), None); SameRemains(s, ApplyDelete(s, t));
    case CheckOpen(c) =>
      var next := if s.pool.stopped then None else Some(DeleteChecked(s.calls[c].id));
      ProceedGate(s, c, next);
      SameTickets(s, c, OtherCall, next);
      SameRemains(s, ApplyDelete(s, t));
    case GiveUpWait(c) =>
      ProceedGate(s, c, None);
      SameTickets(s, c, OtherCall, None);
      SameRemains(s, DropCall(s, c));
    case LookUp(c) =>
      var next := if s.repoClosed || s.calls[c].id !in s.rows then None else Some(DeleteTearing(s.calls[c].id));
      ProceedGate(s, c, next);
      SameTickets(s, c, OtherCall, next);
      SameRemains(s, ApplyDelete(s, t));
    case RemoveRow(c) => RemoveTickets(s, c, s.calls[c].id); SameRemains(s, ApplyDelete(s, t));
    case _ => SameRemains(s, ApplyDelete(s, t));
  }

  lemma StepRemains(s: State, t: Step)
    requires Inv(s) && Enabled(s, t) && Coherent(s.rows)
    ensures Remains(s, Apply(s, t))
  {
    hide Inv, Coherent, Remains, Behind;
    hide ApplyCreate, ApplyDelete, ApplyWork, ApplySched, ApplyStart, ApplyStop, CreateEnabled, DeleteEnabled, WorkEnabled, SchedEnabled, StartEnabled, StopEnabled;
    match t
    case Creating(x) => CreateRemains(s, x);
    case Deleting(x) => DeleteRemains(s, x);
    case Installing(x) => WorkBehind(s, x); BehindRemains(s, ApplyWork(s, x));
    case Scheduling(x) => SchedBehind(s, x); BehindRemains(s, ApplySched(s, x));
    case Opening(x) => StartBehind(s, x); BehindRemains(s, ApplyStart(s, x));
    case Stopping(x) => StopBehind(s, x); BehindRemains(s, ApplyStop(s, x));
  }

  lemma BehindRemains(s: State, s': State)
    requires Behind(s, s')
    ensures Remains(s, s')
  {}

  lemma StepsRemains(s: State, t: Step, s': State)
    requires Inv(s) && Steps(s, t, s')
    ensures Remains(s, s')
  {
    hide Inv, Enabled, Apply, Coherent, Remains;
    StepRemains(s, t);
  }

  lemma RemainsTransitive(a: State, b: State, c: State)
    requires Remains(a, b) && Remains(b, c)
    ensures Remains(a, c)
  {}

  lemma {:induction false} RunRemains(installTimeout: int, states: seq<State>, steps: seq<Step>, i: nat, j: nat)
    requires IsRun(installTimeout, states, steps) && i <= j < |states|
    ensures Remains(states[i], states[j])
    decreases j
  {
    hide Inv, Steps, Remains, IsRun;
    if i == j {
      SameRemains(states[i], states[j]);
    } else {
      RunLength(installTimeout, states, steps);
      RunStep(installTimeout, states, steps, j - 1);
      RunInv(installTimeout, states, steps, j - 1);
      RunRemains(installTimeout, states, steps, i, j - 1);
      StepsRemains(states[j - 1], steps[j - 1], states[j]);
      RemainsTransitive(states[i], states[j - 1], states[j]);
    }
  }

  /** A job a delete takes out of the queue leaves no row behind once the shutdown is clean. */
  lemma DroppedJobLeavesNoRow(installTimeout: int, states: seq<State>, steps: seq<Step>, m: nat, n: nat, c: nat)
    requires IsRun(installTimeout, states, steps) && m < n < |states| == |steps| + 1 && states[n].stop == Ended(true)
    requires steps[m] == Deleting(TakeJobs(c)) && c in states[m].calls && states[m].calls[c].DeleteChecked?
    requires QueuedFor(states[m].pool.queue, states[m].calls[c].id)
    ensures states[m].calls[c].id !in states[n].rows
  {
    hide IsRun, Steps;
    RunStep(installTimeout, states, steps, m);
    RunInv(installTimeout, states, steps, m);
    TakenIsDropped(states[m], states[m + 1], c);
    RunRemains(installTimeout, states, steps, m + 1, n);
    CleanStopLeavesNoOrphan(installTimeout, states, steps, n);
  }

  lemma TakenIsDropped(s: State, s': State, c: nat)
    requires Inv(s) && Steps(s, Deleting(TakeJobs(c)), s') && c in s.calls && s.calls[c].DeleteChecked?
    requires QueuedFor(s.pool.queue, s.calls[c].id)
    ensures DroppedJob(s'.pool, s'.ticketOf, s.calls[c].id)
  {
    hide Coherent, TableInv, IdsInv, Jobs.PoolInv, PhasesInv, CachesInv, ProbesInv, CallsInv, CreatorsInv, DeletersInv, OwnersInv, FenceInv, StopInv, Jobs.Without;
    var i :| 0 <= i < |s.pool.queue| && s.pool.queue[i].id == s.calls[c].id;
    assert Ticketed(s.pool.queue[i], s.ticketOf) && s.pool.queue[i] in s.pool.queue;
  }

  // ----- refused submits -----

  ghost predicate RejectedAt(s: State, c: nat, id: Id) { c in s.calls && s.calls[c] == CreateRejected(id) }

  /** The row is gone, or its create stands before taking it back. */
  ghost predicate TakesBack(s: State, c: nat, id: Id) {
    && id in s.issued
    && (InOrder(s.repoClosed, s.stop) ==> id !in s.rows || RejectedAt(s, c, id))
  }

  lemma StayTakesBack(s: State, s': State, c: nat, id: Id)
    requires TakesBack(s, c, id) && Later(s, s') && (InOrder(s'.repoClosed, s'.stop) ==> InOrder(s.repoClosed, s.stop))
    requires RejectedAt(s, c, id) ==> RejectedAt(s', c, id)
    ensures TakesBack(s', c, id)
  {}

  lemma UndoneTakesBack(s: State, c: nat, id: Id)
    requires Inv(s) && TakesBack(s, c, id) && CreateEnabled(s, UndoInsert(c)) && RejectedAt(s, c, id)
    ensures TakesBack(ApplyRemove(s, c, id), c, id)
  {
    hide Inv;
    if InOrder(s.repoClosed, s.stop) {
      CallsAreOpen(s, c);
      RemoveFacts(s, c, id);
    }
  }

  lemma StepTakesBack(s: State, t: Step, c: nat, id: Id)
    requires Inv(s) && Enabled(s, t) && Coherent(s.rows) && TakesBack(s, c, id)
    ensures TakesBack(Apply(s, t), c, id)
  {
    hide Inv, Coherent, TakesBack, Later, Behind, InOrder;
    hide ApplyCreate, ApplyDelete, ApplyWork, ApplySched, ApplyStart, ApplyStop, CreateEnabled, DeleteEnabled, WorkEnabled, SchedEnabled, StartEnabled, StopEnabled;
    if t == Creating(UndoInsert(c)) && RejectedAt(s, c, id) {
      UndoneTakesBack(s, c, id);
      UndoApplied(s, c);
    } else {
      StepLater(s, t);
      StepInOrder(s, t);
      if RejectedAt(s, c, id) { RejectedStays(s, t, c, id); }
      StayTakesBack(s, Apply(s, t), c, id);
    }
  }

  lemma UndoApplied(s: State, c: nat)
    requires CreateEnabled(s, UndoInsert(c)) && Coherent(s.rows)
    ensures ApplyCreate(s, UndoInsert(c)) == ApplyRemove(s, c, s.calls[c].id)
  {
    hide ApplyRemove, Coherent;
  }

  /** A refused create can only take its row back. */
  lemma RejectedStays(s: State, t: Step, c: nat, id: Id)
    requires Inv(s) && Enabled(s, t) && Coherent(s.rows) && t != Creating(UndoInsert(c)) && RejectedAt(s, c, id)
    ensures RejectedAt(Apply(s, t), c, id)
  {
    hide Inv, Coherent, SameGate, Calms;
    hide ApplyCreate, ApplyDelete, ApplyWork, ApplySched, ApplyStart, ApplyStop, WorkEnabled, SchedEnabled, StartEnabled, StopEnabled;
    match t
    case Creating(x) => CreateSlot(s, x);
    case Deleting(x) => DeleteSlot(s, x);
    case Installing(x) => WorkBehind(s, x);
    case Scheduling(x) => SchedBehind(s, x);
    case Opening(x) => StartBehind(s, x);
    case Stopping(x) => StopBehind(s, x);
  }

  lemma StepsTakesBack(s: State, t: Step, s': State, c: nat, id: Id)
    requires Inv(s) && Steps(s, t, s') && TakesBack(s, c, id)
    ensures TakesBack(s', c, id)
  {
    hide Inv, Enabled, Apply, Coherent, TakesBack;
    StepTakesBack(s, t, c, id);
  }

  lemma {:induction false} RunTakesBack(installTimeout: int, states: seq<State>, steps: seq<Step>, i: nat, j: nat, c: nat, id: Id)
    requires IsRun(installTimeout, states, steps) && i <= j < |states| && TakesBack(states[i], c, id)
    ensures TakesBack(states[j], c, id)
    decreases j
  {
    hide Inv, Steps, TakesBack, IsRun;
    if i < j {
      RunLength(installTimeout, states, steps);
      RunStep(installTimeout, states, steps, j - 1);
      RunInv(installTimeout, states, steps, j - 1);
      RunTakesBack(installTimeout, states, steps, i, j - 1, c, id);
      StepsTakesBack(states[j - 1], steps[j - 1], states[j], c, id);
    }
  }

  lemma RefusedIsRejected(s: State, s': State, c: nat)
    requires Inv(s) && Steps(s, Creating(SubmitJob(c)), s') && c in s.calls && s.calls[c].CreateInserted? && !Jobs.Accepts(s.pool)
    ensures TakesBack(s', c, s.calls[c].id)
  {
    hide Inv, Coherent, Clean, Jobs.Accepts, Enabled, Apply;
    FreshTicket(s, c);
    SubmitStep(s, s', c);
    hide Steps;
  }

  lemma SubmitStep(s: State, s': State, c: nat)
    requires Steps(s, Creating(SubmitJob(c)), s') && c in s.calls && s.calls[c].CreateInserted? && !Jobs.Accepts(s.pool)
    ensures s' == s.(calls := s.calls[c := CreateRejected(s.calls[c].id)])
  {
    hide Coherent, Jobs.Accepts;
  }

  /** A refused submit leaves no row behind once the shutdown is clean. */
  lemma RefusedSubmitLeavesNoRow(installTimeout: int, states: seq<State>, steps: seq<Step>, m: nat, n: nat, c: nat)
    requires IsRun(installTimeout, states, steps) && m < n < |states| == |steps| + 1 && states[n].stop == Ended(true)
    requires steps[m] == Creating(SubmitJob(c)) && c in states[m].calls && states[m].calls[c].CreateInserted?
    requires !Jobs.Accepts(states[m].pool)
    ensures states[m].calls[c].id !in states[n].rows
  {
    hide IsRun, Steps, Inv;
    RunStep(installTimeout, states, steps, m);
    RunInv(installTimeout, states, steps, m);
    RefusedIsRejected(states[m], states[m + 1], c);
    RunTakesBack(installTimeout, states, steps, m + 1, n, c, states[m].calls[c].id);
    CleanStopLeavesNoOrphan(installTimeout, states, steps, n);
  }
}
