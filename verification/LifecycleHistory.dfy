/** What a step owes to earlier ones: exactly when a delete is a fence, and where a clean-up comes from. */
module LifecycleHistory {
  import opened Common
  import opened Workspaces
  import opened Lifecycle
  import opened LifecycleInv
  import opened LifecycleTheorems
  import LifecycleFlow
  import LifecycleSched
  import Jobs = InstallPool

  // ----- a job can still come -----

  /** A create has inserted this row and not submitted it yet. */
  ghost predicate Unsubmitted(calls: map<nat, Call>, id: Id) {
    exists c :: c in calls && calls[c] == CreateInserted(id)
  }

  /** The controller accepts jobs, or can still be started. */
  ghost predicate CanAccept(pool: Jobs.Pool, stop: Stopper, starts: map<nat, Starter>) {
    !pool.stopped && (pool.started || stop.NoStop? || exists c :: c in starts && starts[c].StartChecked?)
  }

  ghost predicate Exposed(s: State, id: Id) {
    Unsubmitted(s.calls, id) && CanAccept(s.pool, s.stop, s.starts)
  }

  /** However the run goes on, no queue holds and no worker runs an install for the id, now or later. */
  ghost predicate FencedFrom(s: State, id: Id) {
    forall states, steps :: IsPath(s, states, steps) ==> Settled(states[|steps|], id)
  }

  // ----- what a call's step does to its slot -----

  /** No other call's stage changes. */
  ghost predicate OnlySlot(calls: map<nat, Call>, calls': map<nat, Call>, c: nat) {
    forall x :: x != c ==> (x in calls' <==> x in calls) && (x in calls' ==> calls'[x] == calls[x])
  }

  predicate Took(call: Call) { call.DeleteTaken? || call.DeleteWaiting? }

  lemma SlotProceeds(s: State, c: nat, next: Option<Call>)
    ensures OnlySlot(s.calls, Proceed(s, c, next).calls, c) && OnlySlot(s.calls, DropCall(s, c).calls, c)
    ensures c in Proceed(s, c, next).calls ==> next == Some(Proceed(s, c, next).calls[c])
    ensures c !in DropCall(s, c).calls
  {}

  lemma CreateSlot(s: State, t: CreateStep)
    requires CreateEnabled(s, t) && Coherent(s.rows)
    ensures var d := ApplyCreate(s, t).calls;
      && OnlySlot(s.calls, d, t.c)
      && (t.c in d ==> !Took(d[t.c]) && (d[t.c].CreateInserted? ==> t.Insert? && d[t.c].id == t.id))
  {
    hide Coherent, Scanned, Proceed, DropCall, OnlySlot, RowsAfter, Jobs.Apply, InsertRow, NewRow;
    match t
    case BeginCreate(_, _) => hide ApplyLock, ApplyInsert, ApplySubmit, ApplyRemove; ReplacedSlot(s.calls, t.c, CreateBegun(t.req));
    case BeginOther(_) => hide ApplyLock, ApplyInsert, ApplySubmit, ApplyRemove; ReplacedSlot(s.calls, t.c, OtherCall);
    case EndOther(c) => hide ApplyLock, ApplyInsert, ApplySubmit, ApplyRemove; SlotProceeds(s, c, None);
    case AbortCreate(c) => hide ApplyLock, ApplyInsert, ApplySubmit, ApplyRemove; SlotProceeds(s, c, None);
    case LockCreate(c) => hide ApplyInsert, ApplySubmit, ApplyRemove; ReplacedSlot(s.calls, c, ApplyLock(s, c).calls[c]);
    case ScanNextPage(c) =>
      hide ApplyLock, ApplyInsert, ApplySubmit, ApplyRemove;
      SlotProceeds(s, c, Scanned(s, s.calls[c].req, s.calls[c].cursor));
      ScannedCalls(s, s.calls[c].req, s.calls[c].cursor);
    case Insert(c, id, plugins, now) => hide ApplyLock, ApplySubmit, ApplyRemove; InsertSlot(s, c, id, plugins, now);
    case SubmitJob(c) => hide ApplyLock, ApplyInsert, ApplyRemove; SubmitSlot(s, c);
    case UndoInsert(c) => hide ApplyLock, ApplyInsert, ApplySubmit; RemoveSlot(s, c, s.calls[c].id);
  }

  lemma ReplacedSlot(calls: map<nat, Call>, c: nat, call: Call)
    ensures OnlySlot(calls, calls[c := call], c)
  {}

  lemma ScannedCalls(s: State, req: Request, cursor: string)
    requires Coherent(s.rows)
    ensures Scanned(s, req, cursor).Some? ==> Scanned(s, req, cursor).value.CreateReady? || Scanned(s, req, cursor).value.CreateScanning?
  {}

  lemma InsertSlot(s: State, c: nat, id: Id, plugins: seq<Attached>, now: int)
    requires c in s.calls && s.calls[c].CreateReady?
    ensures var d := ApplyInsert(s, c, id, plugins, now).calls;
      OnlySlot(s.calls, d, c) && (c in d ==> d[c] == CreateInserted(id))
  {
    hide InsertRow, NewRow, OnlySlot, DropCall, Write;
    SlotProceeds(s.(issued := s.issued + {id}), c, None);
    ReplacedSlot(s.calls, c, CreateInserted(id));
  }

  lemma SubmitSlot(s: State, c: nat)
    requires c in s.calls && s.calls[c].CreateInserted?
    ensures var d := ApplySubmit(s, c).calls;
      OnlySlot(s.calls, d, c) && (c in d ==> d[c].CreateRejected?)
  {
    hide Jobs.Apply, OnlySlot, DropCall;
    var id := s.calls[c].id;
    if Jobs.Accepts(s.pool) {
      SlotProceeds(s.(ticketOf := s.ticketOf[id := s.pool.nextTicket], pool := Jobs.Apply(s.pool, Jobs.Submit(id))), c, None);
    } else {
      ReplacedSlot(s.calls, c, CreateRejected(id));
    }
  }

  lemma RemoveSlot(s: State, c: nat, id: Id)
    ensures OnlySlot(s.calls, ApplyRemove(s, c, id).calls, c) && c !in ApplyRemove(s, c, id).calls
  {
    hide RowsAfter;
  }

  lemma DeleteSlot(s: State, t: DeleteStep)
    requires DeleteEnabled(s, t)
    ensures var d := ApplyDelete(s, t).calls;
      && OnlySlot(s.calls, d, t.c)
      && (t.c in d ==> !d[t.c].CreateInserted?)
      && (t.c in d && Took(d[t.c]) ==> t.TakeJobs? || (t.c in s.calls && Took(s.calls[t.c]) && d[t.c].id == s.calls[t.c].id && d[t.c].known == s.calls[t.c].known))
  {
    hide Proceed, DropCall, OnlySlot, RowsAfter, Jobs.Apply, CancelIf;
    match t
    case BeginDelete(c, id) => hide ApplyTake, ApplyFire, ApplyPass, ApplyRemove; ReplacedSlot(s.calls, c, DeleteBegun(id));
    case CheckOpen(c) =>
      hide ApplyTake, ApplyFire, ApplyPass, ApplyRemove;
      SlotProceeds(s, c, if s.pool.stopped then None else Some(DeleteChecked(s.calls[c].id)));
    case TakeJobs(c) => hide ApplyFire, ApplyPass, ApplyRemove; ReplacedSlot(s.calls, c, ApplyTake(s, c).calls[c]);
    case FireCancel(c) => hide ApplyTake, ApplyPass, ApplyRemove; ReplacedSlot(s.calls, c, ApplyFire(s, c).calls[c]);
    case PassIdle(c) => hide ApplyTake, ApplyFire, ApplyRemove; ReplacedSlot(s.calls, c, ApplyPass(s, c).calls[c]);
    case GiveUpWait(c) => hide ApplyTake, ApplyFire, ApplyPass, ApplyRemove; SlotProceeds(s, c, None);
    case LookUp(c) =>
      hide ApplyTake, ApplyFire, ApplyPass, ApplyRemove;
      var id := s.calls[c].id;
      SlotProceeds(s, c, if s.repoClosed || id !in s.rows then None else Some(DeleteTearing(id)));
    case RemoveRow(c) => hide ApplyTake, ApplyFire, ApplyPass; RemoveSlot(s, c, s.calls[c].id);
  }

  // ----- what a step does to the pool, the stop stage and the starters -----

  ghost predicate SameGate(s: State, s': State) {
    s'.pool == s.pool && s'.stop == s.stop && s'.starts == s.starts && s'.installs == s.installs
  }

  lemma CreateGate(s: State, t: CreateStep)
    requires CreateEnabled(s, t) && Coherent(s.rows)
    ensures var d := ApplyCreate(s, t);
      if t.SubmitJob? && Jobs.Accepts(s.pool) then SameGate(s.(pool := Jobs.Apply(s.pool, Jobs.Submit(s.calls[t.c].id))), d)
      else SameGate(s, d)
  {
    hide Coherent, Scanned, Jobs.Apply, SameGate, AddCall, DropCall, Proceed, ApplyLock, ApplyInsert, ApplySubmit, ApplyRemove;
    match t
    case BeginCreate(c, req) => AddGate(s, c, CreateBegun(req));
    case BeginOther(c) => AddGate(s, c, OtherCall);
    case EndOther(c) => ProceedGate(s, c, None);
    case AbortCreate(c) => ProceedGate(s, c, None);
    case LockCreate(c) => LockGate(s, c);
    case ScanNextPage(c) => ProceedGate(s, c, Scanned(s, s.calls[c].req, s.calls[c].cursor));
    case Insert(c, id, plugins, now) => InsertGate(s, c, id, plugins, now);
    case SubmitJob(c) => SubmitGate(s, c);
    case UndoInsert(c) => RemoveGate(s, c, s.calls[c].id);
  }

  lemma AddGate(s: State, c: nat, call: Call)
    ensures SameGate(s, AddCall(s, c, call))
  {}

  lemma ProceedGate(s: State, c: nat, next: Option<Call>)
    ensures SameGate(s, Proceed(s, c, next)) && SameGate(s, DropCall(s, c))
  {}

  lemma LockGate(s: State, c: nat)
    requires c in s.calls && s.calls[c].CreateBegun?
    ensures SameGate(s, ApplyLock(s, c))
  {}

  lemma RemoveGate(s: State, c: nat, id: Id)
    ensures SameGate(s, ApplyRemove(s, c, id))
  {
    hide RowsAfter;
  }

  lemma InsertGate(s: State, c: nat, id: Id, plugins: seq<Attached>, now: int)
    requires c in s.calls && s.calls[c].CreateReady?
    ensures SameGate(s, ApplyInsert(s, c, id, plugins, now))
  {
    hide InsertRow, NewRow, DropCall, Write;
    ProceedGate(s.(issued := s.issued + {id}), c, None);
  }

  lemma SubmitGate(s: State, c: nat)
    requires c in s.calls && s.calls[c].CreateInserted?
    ensures var id := s.calls[c].id;
      SameGate(if Jobs.Accepts(s.pool) then s.(pool := Jobs.Apply(s.pool, Jobs.Submit(id))) else s, ApplySubmit(s, c))
  {
    hide Jobs.Apply, DropCall;
    var id := s.calls[c].id;
    if Jobs.Accepts(s.pool) {
      ProceedGate(s.(ticketOf := s.ticketOf[id := s.pool.nextTicket], pool := Jobs.Apply(s.pool, Jobs.Submit(id))), c, None);
    }
  }

  /** The pool brings in no job for the id. */
  ghost predicate Calms(p: Jobs.Pool, q: Jobs.Pool, id: Id) {
    && (QueuedFor(q.queue, id) ==> QueuedFor(p.queue, id))
    && (forall w :: Jobs.Holds(q, w, id) ==> Jobs.Holds(p, w, id) || QueuedFor(p.queue, id))
  }

  lemma PoolCalms(p: Jobs.Pool, x: Jobs.Step, id: Id)
    requires Jobs.Enabled(p, x) && !(x.Submit? && x.id == id)
    ensures Calms(p, Jobs.Apply(p, x), id)
    ensures Jobs.Apply(p, x).stopped == (p.stopped || x.SetStopped?) && Jobs.Apply(p, x).started == (p.started || x.Start?)
    ensures x.Submit? || x.TakeQueued? ==> Jobs.Apply(p, x).workers == p.workers
  {
    var q := Jobs.Apply(p, x);
    match x
    case Submit(other) =>
      forall i | 0 <= i < |q.queue| && q.queue[i].id == id ensures QueuedFor(p.queue, id) { assert p.queue[i].id == id; }
    case TakeQueued(other) =>
      Jobs.WithoutIsFilter(p.queue, other);
      hide Jobs.Without;
      forall i | 0 <= i < |q.queue| && q.queue[i].id == id ensures QueuedFor(p.queue, id) {
        assert q.queue[i] in q.queue;
        var k :| 0 <= k < |p.queue| && p.queue[k] == q.queue[i];
      }
    case Dequeue(w) =>
      forall i | 0 <= i < |q.queue| && q.queue[i].id == id ensures QueuedFor(p.queue, id) { assert p.queue[i + 1].id == id; }
      if Jobs.Holds(q, w, id) { assert p.queue[0].id == id; }
    case _ =>
  }

  lemma SamePoolCalms(p: Jobs.Pool, q: Jobs.Pool, id: Id)
    requires q.queue == p.queue && q.workers == p.workers
    ensures Calms(p, q, id)
  {}

  lemma CreateCalms(s: State, t: CreateStep, id: Id)
    requires CreateEnabled(s, t) && Coherent(s.rows) && !Exposed(s, id)
    ensures Calms(s.pool, ApplyCreate(s, t).pool, id)
  {
    hide Coherent, ApplyCreate, Jobs.Apply, Calms;
    CreateGate(s, t);
    if t.SubmitJob? && Jobs.Accepts(s.pool) {
      assert s.calls[t.c] == CreateInserted(s.calls[t.c].id);
      PoolCalms(s.pool, Jobs.Submit(s.calls[t.c].id), id);
    } else {
      SamePoolCalms(s.pool, s.pool, id);
    }
  }

  lemma DeleteGate(s: State, t: DeleteStep, id: Id)
    requires DeleteEnabled(s, t)
    ensures var d := ApplyDelete(s, t);
      && d.stop == s.stop && d.starts == s.starts && d.pool.stopped == s.pool.stopped && d.pool.started == s.pool.started
      && d.installs == s.installs && d.pool.workers == s.pool.workers
      && Calms(s.pool, d.pool, id)
  {
    hide Jobs.Apply, Calms, AddCall, DropCall, Proceed, ApplyTake, ApplyFire, ApplyPass, ApplyRemove;
    SamePoolCalms(s.pool, s.pool, id);
    match t
    case BeginDelete(c, x) => AddGate(s, c, DeleteBegun(x));
    case CheckOpen(c) => ProceedGate(s, c, if s.pool.stopped then None else Some(DeleteChecked(s.calls[c].id)));
    case TakeJobs(c) => TakeGate(s, c, id);
    case FireCancel(c) => FireGate(s, c, id);
    case PassIdle(c) => PassGate(s, c);
    case GiveUpWait(c) => ProceedGate(s, c, None);
    case LookUp(c) =>
      var x := s.calls[c].id;
      ProceedGate(s, c, if s.repoClosed || x !in s.rows then None else Some(DeleteTearing(x)));
    case RemoveRow(c) => RemoveGate(s, c, s.calls[c].id);
  }

  lemma TakeGate(s: State, c: nat, id: Id)
    requires c in s.calls && s.calls[c].DeleteChecked?
    ensures var d := ApplyTake(s, c);
      && d.stop == s.stop && d.starts == s.starts && d.pool.stopped == s.pool.stopped && d.pool.started == s.pool.started
      && d.installs == s.installs && d.pool.workers == s.pool.workers
      && Calms(s.pool, d.pool, id)
  {
    hide Jobs.Apply, Calms;
    PoolCalms(s.pool, Jobs.TakeQueued(s.calls[c].id), id);
  }

  lemma FireGate(s: State, c: nat, id: Id)
    requires c in s.calls && s.calls[c].DeleteTaken?
    ensures var d := ApplyFire(s, c);
      && d.stop == s.stop && d.starts == s.starts && d.pool.stopped == s.pool.stopped && d.pool.started == s.pool.started
      && d.installs == s.installs && d.pool.workers == s.pool.workers
      && Calms(s.pool, d.pool, id)
  {
    hide Calms;
    SamePoolCalms(s.pool, CancelIf(s.pool, s.calls[c].cancel), id);
  }

  lemma PassGate(s: State, c: nat)
    requires c in s.calls && s.calls[c].DeleteWaiting?
    ensures SameGate(s, ApplyPass(s, c))
  {}

  lemma WorkGate(s: State, t: WorkStep, id: Id)
    requires WorkEnabled(s, t)
    ensures var d := ApplyWork(s, t);
      && d.stop == s.stop && d.starts == s.starts && d.calls == s.calls
      && d.pool.stopped == s.pool.stopped && d.pool.started == s.pool.started
      && Calms(s.pool, d.pool, id)
  {
    hide UpdateWrite, MarkWrite, FailWrite, AfterUpdate, AfterMark, AfterFail, AfterReload, Jobs.Apply, Jobs.Enabled, RowsAfter, Calms, ContextDone;
    match t
    case DequeueJob(w) => PoolCalms(s.pool, Jobs.Dequeue(w), id);
    case QuitWorker(w) => PoolCalms(s.pool, Jobs.Quit(w), id);
    case LeaveWorker(w) => PoolCalms(s.pool, Jobs.Leave(w), id);
    case FinishJob(w) => assert Jobs.Enabled(s.pool, Jobs.Finish(w)) by { FinishEnabled(s, w); } PoolCalms(s.pool, Jobs.Finish(w), id);
    case _ => SamePoolCalms(s.pool, s.pool, id);
  }

  lemma FinishEnabled(s: State, w: nat)
    requires InPhase(s, w)
    ensures Jobs.Enabled(s.pool, Jobs.Finish(w))
  {}

  lemma StartGate(s: State, t: StartStep, id: Id)
    requires StartEnabled(s, t)
    ensures var d := ApplyStart(s, t);
      && d.calls == s.calls && Calms(s.pool, d.pool, id)
      && (CanAccept(d.pool, d.stop, d.starts) ==> CanAccept(s.pool, s.stop, s.starts))
  {
    match t
    case StartPool(c, n) =>
      if Jobs.Enabled(s.pool, Jobs.Start(n)) { PoolCalms(s.pool, Jobs.Start(n), id); } else { SamePoolCalms(s.pool, s.pool, id); }
      hide Jobs.Apply, Calms;
    case _ =>
      hide Calms;
      SamePoolCalms(s.pool, ApplyStart(s, t).pool, id);
  }

  lemma StopGate(s: State, t: StopStep, id: Id)
    requires StopEnabled(s, t)
    ensures var d := ApplyStop(s, t);
      && d.calls == s.calls && Calms(s.pool, d.pool, id)
      && (CanAccept(d.pool, d.stop, d.starts) ==> CanAccept(s.pool, s.stop, s.starts))
  {
    hide Calms;
    SamePoolCalms(s.pool, ApplyStop(s, t).pool, id);
  }

  lemma SchedGate(s: State, t: SchedStep)
    requires SchedEnabled(s, t) && Coherent(s.rows)
    ensures var d := ApplySched(s, t); d.calls == s.calls && SameGate(s, d)
  {
    hide ListedSched, RecordedRows, RecordedProbes, JudgedRows, Coherent, RowsAfter;
  }

  // ----- the fence, exactly -----

  /** What the fence needs, and what every step keeps. */
  ghost predicate Lasting(s: State, id: Id) {
    id in s.issued && Settled(s, id) && !Exposed(s, id)
  }

  ghost predicate Quieter(s: State, s': State, id: Id) {
    && (Unsubmitted(s'.calls, id) ==> Unsubmitted(s.calls, id))
    && (CanAccept(s'.pool, s'.stop, s'.starts) ==> CanAccept(s.pool, s.stop, s.starts))
    && (!Exposed(s, id) ==> Calms(s.pool, s'.pool, id))
  }

  lemma SlotSubmits(calls: map<nat, Call>, calls': map<nat, Call>, c: nat, id: Id)
    requires OnlySlot(calls, calls', c) && (c in calls' ==> calls'[c] != CreateInserted(id))
    ensures Unsubmitted(calls', id) ==> Unsubmitted(calls, id)
  {}

  lemma StepQuieter(s: State, t: Step, id: Id)
    requires Enabled(s, t) && Coherent(s.rows) && id in s.issued
    ensures Quieter(s, Apply(s, t), id)
  {
    hide Coherent, OnlySlot, Calms, Unsubmitted;
    hide ApplyCreate, ApplyDelete, ApplyWork, ApplySched, ApplyStart, ApplyStop, DeleteEnabled, WorkEnabled, SchedEnabled, StartEnabled, StopEnabled;
    match t
    case Creating(x) => CreateQuieter(s, x, id);
    case Deleting(x) => DeleteSlot(s, x); DeleteGate(s, x, id); SlotSubmits(s.calls, ApplyDelete(s, x).calls, x.c, id);
    case Installing(x) => WorkGate(s, x, id);
    case Scheduling(x) => SchedGate(s, x); SamePoolCalms(s.pool, s.pool, id);
    case Opening(x) => StartGate(s, x, id);
    case Stopping(x) => StopGate(s, x, id);
  }

  lemma CreateQuieter(s: State, t: CreateStep, id: Id)
    requires CreateEnabled(s, t) && Coherent(s.rows) && id in s.issued
    ensures Quieter(s, ApplyCreate(s, t), id)
  {
    hide Coherent, OnlySlot, Calms, Unsubmitted, CanAccept, SameGate, ApplyCreate, CreateEnabled, Exposed;
    CreateSlot(s, t);
    InsertIsFresh(s, t);
    SlotSubmits(s.calls, ApplyCreate(s, t).calls, t.c, id);
    CreateAccepts(s, t);
    if !Exposed(s, id) { CreateCalms(s, t, id); }
  }

  lemma InsertIsFresh(s: State, t: CreateStep)
    requires CreateEnabled(s, t)
    ensures t.Insert? ==> t.id !in s.issued
  {}

  lemma CreateAccepts(s: State, t: CreateStep)
    requires CreateEnabled(s, t) && Coherent(s.rows)
    ensures var d := ApplyCreate(s, t); CanAccept(d.pool, d.stop, d.starts) == CanAccept(s.pool, s.stop, s.starts)
  {
    hide Coherent, ApplyCreate;
    CreateGate(s, t);
  }

  lemma QuieterKeeps(s: State, s': State, id: Id)
    requires Lasting(s, id) && Quieter(s, s', id) && s.issued <= s'.issued
    ensures Lasting(s', id)
  {
    hide Unsubmitted, CanAccept, QueuedFor, Jobs.Holds;
  }

  lemma StepsLasting(s: State, t: Step, s': State, id: Id)
    requires Inv(s) && Steps(s, t, s') && Lasting(s, id)
    ensures Inv(s') && Lasting(s', id)
  {
    hide Inv, Coherent, Enabled, Apply, Quieter;
    StepKeeps(s, t);
    StepLater(s, t);
    assert id in s.issued by { hide Settled, Exposed; }
    StepQuieter(s, t, id);
    hide Lasting;
    QuieterKeeps(s, s', id);
  }

  lemma {:induction false} PathLasting(s: State, states: seq<State>, steps: seq<Step>, n: nat, id: Id)
    requires Inv(s) && IsPath(s, states, steps) && n <= |steps| && Lasting(s, id)
    ensures Inv(states[n]) && Lasting(states[n], id)
  {
    hide Inv, Lasting, Steps;
    if n > 0 {
      PathLasting(s, states, steps, n - 1, id);
      StepsLasting(states[n - 1], steps[n - 1], states[n], id);
    }
  }

  /** A run from here can go wrong if it can after one more step. */
  lemma UnfencedBefore(s: State, t: Step, s': State, id: Id)
    requires Steps(s, t, s') && !FencedFrom(s', id)
    ensures !FencedFrom(s, id)
  {
    hide Steps, Settled;
    var states, steps :| IsPath(s', states, steps) && !Settled(states[|steps|], id);
    var states', steps' := [s] + states, [t] + steps;
    forall i | 0 <= i < |steps'| ensures Steps(states'[i], steps'[i], states'[i + 1]) {
      if i > 0 { assert Steps(states[i - 1], steps[i - 1], states[i]); }
    }
    assert IsPath(s, states', steps');
    assert states'[|steps'|] == states[|steps|];
  }

  lemma UnsettledIsUnfenced(s: State, id: Id)
    requires !Settled(s, id)
    ensures !FencedFrom(s, id)
  {
    hide Steps, Settled;
    assert IsPath(s, [s], []);
  }

  lemma SubmitUnsettles(s: State, c: nat, id: Id)
    requires c in s.calls && s.calls[c] == CreateInserted(id) && Jobs.Accepts(s.pool) && Coherent(s.rows)
    ensures !FencedFrom(s, id)
  {
    var t := Creating(SubmitJob(c));
    var s' := ApplySubmit(s, c);
    assert Steps(s, t, s') by { hide Coherent, ApplySubmit; }
    assert QueuedFor(s'.pool.queue, id) by {
      assert s'.pool.queue == s.pool.queue + [Jobs.Job(id, s.pool.nextTicket)];
      assert s'.pool.queue[|s.pool.queue|].id == id;
    }
    hide Steps, QueuedFor, ApplySubmit, FencedFrom;
    UnsettledIsUnfenced(s', id);
    UnfencedBefore(s, t, s', id);
  }

  /** Starting the pool makes it accept jobs. */
  lemma StartUnsettles(s: State, c: nat, d: nat, id: Id)
    requires c in s.calls && s.calls[c] == CreateInserted(id) && !s.pool.started && !s.pool.stopped && Coherent(s.rows)
    requires d in s.starts && s.starts[d].StartChecked?
    ensures !FencedFrom(s, id)
  {
    var t := Opening(StartPool(d, 1));
    var s' := ApplyStart(s, StartPool(d, 1));
    assert Steps(s, t, s') by { hide Coherent, Jobs.Apply; }
    assert Jobs.Accepts(s'.pool) && s'.calls == s.calls && s'.rows == s.rows;
    hide Steps, ApplyStart, FencedFrom, Coherent;
    SubmitUnsettles(s', c, id);
    UnfencedBefore(s, t, s', id);
  }

  lemma FreshCaller(used: set<nat>) returns (c: nat)
    ensures c !in used
  {
    var top := MaxOf(used);
    c := top + 1;
  }

  lemma MaxOf(used: set<nat>) returns (m: nat)
    ensures forall x :: x in used ==> x <= m
    decreases used
  {
    m := 0;
    if used != {} {
      var x :| x in used;
      var rest := MaxOf(used - {x});
      m := if x > rest then x else rest;
      assert forall y :: y in used ==> y == x || y in used - {x};
    }
  }

  lemma ExposedIsUnfenced(s: State, id: Id)
    requires Exposed(s, id) && Coherent(s.rows)
    ensures !FencedFrom(s, id)
  {
    hide FencedFrom, Coherent;
    var c :| c in s.calls && s.calls[c] == CreateInserted(id);
    if s.pool.started {
      SubmitUnsettles(s, c, id);
    } else if d :| d in s.starts && s.starts[d].StartChecked? {
      StartUnsettles(s, c, d, id);
    } else {
      var d := FreshCaller(s.starts.Keys);
      var t := Opening(StartCheck(d));
      var s' := s.(starts := s.starts[d := StartChecked]);
      assert Steps(s, t, s');
      hide Steps;
      StartUnsettles(s', c, d, id);
      UnfencedBefore(s, t, s', id);
    }
  }

  /**
   For an issued id: no install for it is queued or running from here on, however the run goes on, if and only if
   none is now and no create that has inserted it stands before a submit that can still be accepted.
   */
  lemma FencedFromIff(s: State, id: Id)
    requires Inv(s) && id in s.issued
    ensures FencedFrom(s, id) <==> Settled(s, id) && !Exposed(s, id)
  {
    assert Coherent(s.rows) by { LifecycleSched.Parts(s); }
    hide Inv, Coherent, Steps, Settled, Exposed, IsPath;
    if !Settled(s, id) { UnsettledIsUnfenced(s, id); }
    if Exposed(s, id) { ExposedIsUnfenced(s, id); }
    if Settled(s, id) && !Exposed(s, id) {
      forall states, steps | IsPath(s, states, steps) ensures Settled(states[|steps|], id) {
        PathLasting(s, states, steps, |steps|, id);
      }
    }
  }

  /** Past the wait no worker holds the id; the rest is the queue and the creates. */
  lemma PassedWait(s: State, c: nat)
    requires Inv(s) && DeleteEnabled(s, PassIdle(c))
    ensures var s', id := ApplyPass(s, c), s.calls[c].id;
      && (Settled(s', id) <==> !QueuedFor(s.pool.queue, id))
      && (Exposed(s', id) <==> Exposed(s, id))
      && s'.issued == s.issued
  {
    hide Inv, QueuedFor, CanAccept, Jobs.Holds;
    var s', id := ApplyPass(s, c), s.calls[c].id;
    PassGate(s, c);
    NoHolder(s, id);
    assert Unsubmitted(s'.calls, id) <==> Unsubmitted(s.calls, id) by {
      if d :| d in s.calls && s.calls[d] == CreateInserted(id) { assert s'.calls[d] == CreateInserted(id); }
    }
  }

  lemma NoHolder(s: State, id: Id)
    requires Inv(s) && id !in s.pool.installRunning
    ensures forall w :: !Jobs.Holds(s.pool, w, id)
  {
    hide TableInv, IdsInv, JobsInv, PhasesInv, CachesInv, ProbesInv, CallsInv, CreatorsInv, DeletersInv, OwnersInv, FenceInv, StopInv;
    forall w ensures !Jobs.Holds(s.pool, w, id) { assert w !in Jobs.Holders(s.pool, id); }
  }

  lemma PassStep(s: State, s': State, c: nat)
    requires Steps(s, Deleting(PassIdle(c)), s')
    ensures DeleteEnabled(s, PassIdle(c)) && s' == ApplyPass(s, c)
  {
    hide Coherent;
  }

  /**
   Exactly when a delete that has passed its wait is a fence for an issued id: nothing for it was queued again
   in the meantime, and no create stands between its insert and a submit that can still be accepted.
   */
  lemma DeleteFenceIff(installTimeout: int, states: seq<State>, steps: seq<Step>, n: nat, c: nat)
    requires IsRun(installTimeout, states, steps) && n < |steps| && steps[n] == Deleting(PassIdle(c))
    requires c in states[n].calls && states[n].calls[c].DeleteWaiting? && states[n].calls[c].id in states[n].issued
    ensures var id := states[n].calls[c].id;
      FencedFrom(states[n + 1], id) <==> !QueuedFor(states[n].pool.queue, id) && !Exposed(states[n], id)
  {
    hide IsRun, Inv, ApplyPass, Steps, FencedFrom, Settled, Exposed, QueuedFor;
    RunLength(installTimeout, states, steps);
    RunInv(installTimeout, states, steps, n);
    RunInv(installTimeout, states, steps, n + 1);
    RunStep(installTimeout, states, steps, n);
    PassStep(states[n], states[n + 1], c);
    PassedWait(states[n], c);
    FencedFromIff(states[n + 1], states[n].calls[c].id);
  }

  // ----- a submit before the delete is enough -----

  /** The call, while it is past taking the jobs and before its wait is over, is about this id and saw it submitted. */
  ghost predicate Remembers(s: State, c: nat, id: Id) {
    c in s.calls && Took(s.calls[c]) ==> s.calls[c].id == id && s.calls[c].known
  }

  lemma StepRemembers(s: State, t: Step, c: nat, id: Id)
    requires Enabled(s, t) && Coherent(s.rows) && Remembers(s, c, id) && t != Deleting(TakeJobs(c))
    ensures Remembers(Apply(s, t), c, id)
  {
    hide Coherent, Calms;
    hide ApplyCreate, ApplyDelete, ApplyWork, ApplySched, ApplyStart, ApplyStop, CreateEnabled, DeleteEnabled, WorkEnabled, SchedEnabled, StartEnabled, StopEnabled;
    match t
    case Creating(x) => CreateSlot(s, x);
    case Deleting(x) => DeleteSlot(s, x);
    case Installing(x) => WorkGate(s, x, id);
    case Scheduling(x) => SchedGate(s, x);
    case Opening(x) => StartGate(s, x, id);
    case Stopping(x) => StopGate(s, x, id);
  }

  lemma {:induction false} PathRemembers(installTimeout: int, states: seq<State>, steps: seq<Step>, m: nat, n: nat, c: nat, id: Id)
    requires IsRun(installTimeout, states, steps) && m < n <= |steps| && |states| == |steps| + 1
    requires forall k :: m < k < n ==> steps[k] != Deleting(TakeJobs(c))
    requires Remembers(states[m + 1], c, id)
    ensures Remembers(states[n], c, id)
    decreases n
  {
    hide IsRun, Remembers, Steps;
    if m + 1 < n {
      PathRemembers(installTimeout, states, steps, m, n - 1, c, id);
      RunStep(installTimeout, states, steps, n - 1);
      assert Coherent(states[n - 1].rows) && Enabled(states[n - 1], steps[n - 1]) && states[n] == Apply(states[n - 1], steps[n - 1]) by {
        StepsMean(states[n - 1], steps[n - 1], states[n]);
      }
      hide Coherent, Enabled, Apply;
      StepRemembers(states[n - 1], steps[n - 1], c, id);
    }
  }

  lemma StepsMean(s: State, t: Step, s': State)
    requires Steps(s, t, s')
    ensures Coherent(s.rows) && Enabled(s, t) && s' == Apply(s, t)
  {
    hide Coherent, Enabled, Apply;
  }

  /** A known id is not queued, and its create has submitted it. */
  lemma KnownIsClear(s: State, c: nat)
    requires Inv(s) && c in s.calls && s.calls[c].DeleteWaiting? && s.calls[c].known
    ensures !QueuedFor(s.pool.queue, s.calls[c].id) && !Exposed(s, s.calls[c].id) && s.calls[c].id in s.issued
  {
    hide TableInv, JobsInv, PhasesInv, CachesInv, ProbesInv, CallsInv, OwnersInv, FenceInv, StopInv, Jobs.PoolInv;
    assert DeleterOk(s.pool.queue, s.ticketOf, s.calls[c]);
    forall d | d in s.calls ensures s.calls[d] != CreateInserted(s.calls[c].id) {
      assert CreatorOk(s.rows, s.issued, s.ticketOf, s.calls[d]);
    }
  }

  lemma TakeStep(s: State, s': State, c: nat)
    requires Inv(s) && Steps(s, Deleting(TakeJobs(c)), s') && c in s.calls && s.calls[c].DeleteChecked? && s.calls[c].id in s.ticketOf
    ensures Remembers(s', c, s.calls[c].id)
  {
    hide Inv, Coherent, Enabled, Apply;
    KnownMeansSubmitted(s, c);
  }

  lemma Remembered(s: State, c: nat, id: Id)
    requires Remembers(s, c, id) && c in s.calls && s.calls[c].DeleteWaiting?
    ensures s.calls[c].id == id && s.calls[c].known
  {}

  /**
   A delete that empties the queue after its id was submitted, and later passes its wait, is a fence: from then
   on no install for the id is queued or running, however the run goes on.
   */
  lemma SubmittedBeforeIsFenced(installTimeout: int, states: seq<State>, steps: seq<Step>, m: nat, n: nat, c: nat)
    requires IsRun(installTimeout, states, steps) && m < n < |steps| && |states| == |steps| + 1
    requires steps[m] == Deleting(TakeJobs(c)) && c in states[m].calls && states[m].calls[c].DeleteChecked?
    requires states[m].calls[c].id in states[m].ticketOf
    requires steps[n] == Deleting(PassIdle(c)) && forall k :: m < k < n ==> steps[k] != Deleting(TakeJobs(c))
    ensures FencedFrom(states[n + 1], states[m].calls[c].id)
  {
    hide IsRun, Inv, Steps, FencedFrom, QueuedFor, Exposed, Remembers;
    var id := states[m].calls[c].id;
    RunInv(installTimeout, states, steps, m);
    RunInv(installTimeout, states, steps, n);
    RunStep(installTimeout, states, steps, m);
    RunStep(installTimeout, states, steps, n);
    TakeStep(states[m], states[m + 1], c);
    PathRemembers(installTimeout, states, steps, m, n, c, id);
    PassStep(states[n], states[n + 1], c);
    assert states[n].calls[c].id == id && states[n].calls[c].known by { Remembered(states[n], c, id); }
    KnownIsClear(states[n], c);
    DeleteFenceIff(installTimeout, states, steps, n, c);
  }

  // ----- a clean-up has its reason -----

  /** The row is settled, and not by an install timeout. */
  ghost predicate SettledOtherwise(s: State, id: Id) {
    && !s.repoClosed && id in s.rows && s.rows[id].status != Init
    && !(s.rows[id].status == Failed && s.rows[id].error.Some? && s.rows[id].error.value.code == INSTALL_TIMEOUT_CODE)
  }

  ghost predicate AboutToClean(s: State, w: nat, job: Jobs.Job) {
    InPhase(s, w) && s.installs[w].Cleaning? && s.pool.workers[w].job == job
  }

  ghost predicate ReloadsStale(s: State, t: Step, w: nat, job: Jobs.Job) {
    && t == Installing(Reload(w)) && InPhase(s, w) && s.installs[w].Reloading?
    && s.pool.workers[w].job == job && SettledOtherwise(s, job.id)
  }

  lemma WorkCleans(s: State, t: WorkStep, w: nat, job: Jobs.Job)
    requires WorkEnabled(s, t) && AboutToClean(ApplyWork(s, t), w, job)
    ensures AboutToClean(s, w, job) || ReloadsStale(s, Installing(t), w, job)
  {
    hide UpdateWrite, MarkWrite, FailWrite, RowsAfter, ContextDone, Write, Settles, AfterReload;
    match t
    case Reload(v) => if v == w { ReloadShrinks(s, JobId(s, w), s.installs[w]); }
    case _ =>
  }

  lemma OtherCleans(s: State, s': State, w: nat, job: Jobs.Job)
    requires s'.installs == s.installs && s'.pool.workers == s.pool.workers && AboutToClean(s', w, job)
    ensures AboutToClean(s, w, job)
  {}

  /** Starting the pool finds no worker at work. */
  lemma NobodyCleansAfterStart(s: State, c: nat, n: nat, w: nat, job: Jobs.Job)
    requires Inv(s) && StartEnabled(s, StartPool(c, n)) && Jobs.Enabled(s.pool, Jobs.Start(n))
    ensures !AboutToClean(ApplyStart(s, StartPool(c, n)), w, job)
  {
    assert Jobs.PoolInv(s.pool);
    hide Inv, Jobs.PoolInv, Jobs.Apply;
    LifecycleFlow.StartFacts(s.pool, n);
  }

  lemma StartElsewhere(s: State, t: StartStep)
    requires StartEnabled(s, t) && !(t.StartPool? && Jobs.Enabled(s.pool, Jobs.Start(t.n)))
    ensures ApplyStart(s, t).installs == s.installs && ApplyStart(s, t).pool.workers == s.pool.workers
  {}

  lemma StartCleans(s: State, t: StartStep, w: nat, job: Jobs.Job)
    requires Inv(s) && StartEnabled(s, t) && AboutToClean(ApplyStart(s, t), w, job)
    ensures AboutToClean(s, w, job)
  {
    hide Inv, AboutToClean, ApplyStart, StartEnabled, Jobs.Apply, Jobs.Enabled;
    if t.StartPool? && Jobs.Enabled(s.pool, Jobs.Start(t.n)) {
      NobodyCleansAfterStart(s, t.c, t.n, w, job);
    } else {
      StartElsewhere(s, t);
      OtherCleans(s, ApplyStart(s, t), w, job);
    }
  }

  lemma StopWorkers(s: State, t: StopStep)
    requires StopEnabled(s, t)
    ensures ApplyStop(s, t).installs == s.installs && ApplyStop(s, t).pool.workers == s.pool.workers
  {}

  lemma CreateWorkers(s: State, t: CreateStep)
    requires CreateEnabled(s, t) && Coherent(s.rows)
    ensures ApplyCreate(s, t).installs == s.installs && ApplyCreate(s, t).pool.workers == s.pool.workers
  {
    hide Coherent, ApplyCreate;
    CreateGate(s, t);
  }

  lemma StepCleans(s: State, t: Step, w: nat, job: Jobs.Job)
    requires Inv(s) && Enabled(s, t) && Coherent(s.rows) && AboutToClean(Apply(s, t), w, job)
    ensures AboutToClean(s, w, job) || ReloadsStale(s, t, w, job)
  {
    hide Inv, Coherent, AboutToClean, ReloadsStale, Calms, CanAccept;
    hide ApplyCreate, ApplyDelete, ApplyWork, ApplySched, ApplyStart, ApplyStop, CreateEnabled, DeleteEnabled, WorkEnabled, SchedEnabled, StartEnabled, StopEnabled;
    match t
    case Creating(x) => CreateWorkers(s, x); OtherCleans(s, ApplyCreate(s, x), w, job);
    case Deleting(x) => DeleteGate(s, x, job.id); OtherCleans(s, ApplyDelete(s, x), w, job);
    case Installing(x) => WorkCleans(s, x, w, job);
    case Scheduling(x) => SchedGate(s, x); OtherCleans(s, ApplySched(s, x), w, job);
    case Opening(x) => StartCleans(s, x, w, job);
    case Stopping(x) => StopWorkers(s, x); OtherCleans(s, ApplyStop(s, x), w, job);
  }

  lemma NobodyCleansAtFirst(installTimeout: int, w: nat, job: Jobs.Job)
    ensures !AboutToClean(Initial(installTimeout), w, job)
  {}

  lemma {:induction false} RunCleans(installTimeout: int, states: seq<State>, steps: seq<Step>, n: nat, w: nat, job: Jobs.Job) returns (m: nat)
    requires IsRun(installTimeout, states, steps) && n < |states| == |steps| + 1 && AboutToClean(states[n], w, job)
    ensures m < n && ReloadsStale(states[m], steps[m], w, job)
  {
    hide IsRun, Inv, Steps, ReloadsStale, AboutToClean;
    m := if n > 0 then n - 1 else 0;
    RunLength(installTimeout, states, steps);
    NobodyCleansAtFirst(installTimeout, w, job);
    if n > 0 {
      RunInv(installTimeout, states, steps, n - 1);
      RunStep(installTimeout, states, steps, n - 1);
      StepsMean(states[n - 1], steps[n - 1], states[n]);
      hide Coherent, Enabled, Apply;
      StepCleans(states[n - 1], steps[n - 1], w, job);
      if !ReloadsStale(states[n - 1], steps[n - 1], w, job) {
        m := RunCleans(installTimeout, states, steps, n - 1, w, job);
      }
    }
  }

  /**
   An install clears its directory only because an earlier step of the same worker on the same job found the row
   settled, and not by an install timeout; and since then the row has not been in init.
   */
  lemma CleanUpHasReason(installTimeout: int, states: seq<State>, steps: seq<Step>, n: nat, w: nat) returns (m: nat)
    requires IsRun(installTimeout, states, steps) && n < |steps| && |states| == |steps| + 1
    requires steps[n] == Installing(CleanUp(w)) && InPhase(states[n], w) && states[n].installs[w].Cleaning?
    ensures m < n && steps[m] == Installing(Reload(w)) && InPhase(states[m], w)
    ensures states[m].pool.workers[w].job == states[n].pool.workers[w].job
    ensures SettledOtherwise(states[m], JobId(states[n], w))
    ensures JobId(states[n], w) in states[n].rows ==> states[n].rows[JobId(states[n], w)].status != Init
  {
    hide IsRun, Steps, SettledOtherwise;
    m := RunCleans(installTimeout, states, steps, n, w, states[n].pool.workers[w].job);
    var id := JobId(states[n], w);
    RunInv(installTimeout, states, steps, m);
    assert id in states[m].issued by { SettledIsIssued(states[m], id); }
    assert PastInit(states[m], id) by { SettledIsIssued(states[m], id); }
    hide Inv;
    NeverBackToInit(installTimeout, states, steps, m, n, id);
  }

  lemma SettledIsIssued(s: State, id: Id)
    requires Inv(s) && SettledOtherwise(s, id)
    ensures PastInit(s, id)
  {
    LifecycleSched.Parts(s);
    hide Inv;
  }
}
