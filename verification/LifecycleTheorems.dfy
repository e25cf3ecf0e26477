/** What the lifecycle plane guarantees over whole runs, under every interleaving. */
module LifecycleTheorems {
  import opened Common
  import opened Workspaces
  import opened Paging
  import opened Lifecycle
  import opened LifecycleInv
  import opened LifecycleSched
  import opened LifecycleWork
  import opened LifecycleCalls
  import opened LifecycleFlow
  import Jobs = InstallPool

  ghost predicate IsPath(from: State, states: seq<State>, steps: seq<Step>) {
    && |states| == |steps| + 1
    && states[0] == from
    && forall i :: 0 <= i < |steps| ==> Steps(states[i], steps[i], states[i + 1])
  }

  ghost predicate IsRun(installTimeout: int, states: seq<State>, steps: seq<Step>) {
    IsPath(Initial(installTimeout), states, steps)
  }

  // That the table is coherent is no restriction on runs: StepKeeps gives it in every state.
  ghost predicate Steps(s: State, t: Step, s': State) {
    Coherent(s.rows) && Enabled(s, t) && s' == Apply(s, t)
  }

  /** These steps, one after the other and nothing in between, lead from s to end. */
  ghost predicate Leads(s: State, steps: seq<Step>, end: State)
    decreases |steps|
  {
    if steps == [] then end == s
    else Coherent(s.rows) && Enabled(s, steps[0]) && Leads(Apply(s, steps[0]), steps[1..], end)
  }

  lemma NothingLeads(s: State)
    ensures Leads(s, [], s)
  {}

  lemma {:induction false} LeadsThen(s: State, steps: seq<Step>, m: State, t: Step, end: State)
    requires Leads(s, steps, m) && Steps(m, t, end)
    ensures Leads(s, steps + [t], end)
    decreases |steps|
  {
    hide Coherent, Enabled, Apply;
    if steps == [] {
      assert Leads(end, [], end);
      assert ([] + [t])[1..] == [];
    } else {
      LeadsThen(Apply(s, steps[0]), steps[1..], m, t, end);
      assert (steps + [t])[1..] == steps[1..] + [t];
    }
  }

  lemma {:induction false} LeadsOn(s: State, a: seq<Step>, m: State, b: seq<Step>, end: State)
    requires Leads(s, a, m) && Leads(m, b, end)
    ensures Leads(s, a + b, end)
    decreases |a|
  {
    hide Coherent, Enabled, Apply;
    if a == [] {
      assert a + b == b;
    } else {
      LeadsOn(Apply(s, a[0]), a[1..], m, b, end);
      assert (a + b)[1..] == a[1..] + b;
    }
  }

  /** What a list of steps leads to is the end of a path. */
  lemma {:induction false} LeadsIsPath(s: State, steps: seq<Step>, end: State) returns (states: seq<State>)
    requires Leads(s, steps, end)
    ensures IsPath(s, states, steps) && states[|steps|] == end
    decreases |steps|
  {
    hide Coherent, Enabled, Apply;
    states := [s];
    if steps != [] {
      var rest := LeadsIsPath(Apply(s, steps[0]), steps[1..], end);
      states := [s] + rest;
      hide Steps;
      forall i | 0 <= i < |steps| ensures Steps(states[i], steps[i], states[i + 1]) {
        if i > 0 { assert Steps(rest[i - 1], steps[1..][i - 1], rest[i]); } else { FirstStep(s, steps[0]); }
      }
    }
  }

  lemma FirstStep(s: State, t: Step)
    requires Coherent(s.rows) && Enabled(s, t)
    ensures Steps(s, t, Apply(s, t))
  {
    hide Coherent, Enabled, Apply;
  }

  lemma RunStep(installTimeout: int, states: seq<State>, steps: seq<Step>, i: nat)
    requires IsRun(installTimeout, states, steps) && i < |steps|
    ensures |states| == |steps| + 1 && Steps(states[i], steps[i], states[i + 1])
  {
    hide Steps;
  }

  lemma RunLength(installTimeout: int, states: seq<State>, steps: seq<Step>)
    requires IsRun(installTimeout, states, steps)
    ensures |states| == |steps| + 1 && states[0] == Initial(installTimeout)
  {
    hide Steps;
  }

  lemma StepKeeps(s: State, t: Step)
    requires Inv(s) && Enabled(s, t)
    ensures Coherent(s.rows) && Inv(Apply(s, t))
  {
    assert Coherent(s.rows) by { Parts(s); }
    hide Inv, Coherent, CreateEnabled, DeleteEnabled, WorkEnabled, SchedEnabled, StartEnabled, StopEnabled;
    hide ApplyCreate, ApplyDelete, ApplyWork, ApplySched, ApplyStart, ApplyStop;
    match t
    case Creating(x) => CreateKeeps(s, x);
    case Deleting(x) => DeleteKeeps(s, x);
    case Installing(x) => WorkKeeps(s, x);
    case Scheduling(x) => SchedKeeps(s, x);
    case Opening(x) => StartKeeps(s, x);
    case Stopping(x) => StopKeeps(s, x);
  }

  lemma StepsKeeps(s: State, t: Step, s': State)
    requires Inv(s) && Steps(s, t, s')
    ensures Inv(s')
  {
    hide Inv, Coherent, Enabled, Apply;
    StepKeeps(s, t);
  }

  lemma {:induction false} RunInv(installTimeout: int, states: seq<State>, steps: seq<Step>, n: nat)
    requires IsRun(installTimeout, states, steps) && n < |states|
    ensures Inv(states[n])
  {
    hide Inv, Steps, IsRun;
    RunLength(installTimeout, states, steps);
    if n == 0 {
      InitialInv(installTimeout);
    } else {
      RunInv(installTimeout, states, steps, n - 1);
      RunStep(installTimeout, states, steps, n - 1);
      StepsKeeps(states[n - 1], steps[n - 1], states[n]);
    }
  }

  // ----- shutdown -----

  lemma DrainedPool(p: Jobs.Pool)
    requires Jobs.PoolInv(p) && PoolDrained(p)
    ensures p.queue == [] && forall w :: w in p.workers ==> p.workers[w].Gone?
    ensures forall t: nat :: t < p.nextTicket ==> t in p.finished || t in p.dropped
  {
    if p.started { Jobs.DoneInv(p); }
    forall t: nat | t < p.nextTicket ensures t in p.finished || t in p.dropped {
      assert !Jobs.Queued(p, t) && !Jobs.Underway(p, t);
    }
  }

  // ----- init is the ownership token -----

  ghost predicate TouchesOnlyInit(s: State, t': Table, w: nat, id: Id) {
    && t'.Keys == s.rows.Keys
    && (id in s.rows && t'[id] != s.rows[id] ==>
          s.rows[id].status == Init && Jobs.Holds(s.pool, w, id) && t'[id].createdAt == s.rows[id].createdAt)
  }

  lemma StatusWriteOnInit(s: State, w: nat, next: Status, error: Option<Failure>, at: int, id: Id)
    requires InPhase(s, w)
    ensures TouchesOnlyInit(s, RowsAfter(s, CompareAndSet(s.rows, JobId(s, w), ByController, Init, next, error, at)), w, id)
  {}

  /** The whole-row write carries status init, and Update refuses it unless the stored row is in init too. */
  lemma RowWriteOnInit(s: State, w: nat, id: Id)
    requires InPhase(s, w) && s.installs[w].Updating?
    requires s.installs[w].latest.id == JobId(s, w) && s.installs[w].latest.status == Init
    ensures TouchesOnlyInit(s, RowsAfter(s, UpdateWrite(s, w)), w, id)
  {}

  lemma LatestInInit(s: State, w: nat)
    requires Inv(s) && InPhase(s, w) && s.installs[w].Updating?
    ensures s.installs[w].latest.id == JobId(s, w) && s.installs[w].latest.status == Init
  {
    WorkParts(s, w);
    hide Inv;
  }

  lemma SameTouches(s: State, w: nat, id: Id)
    ensures TouchesOnlyInit(s, s.rows, w, id)
  {}

  /** An install worker's step changes no row but its own job's, and that one only while it is in init. */
  lemma WorkerStepTouchesOnlyInit(s: State, t: WorkStep, id: Id)
    requires Inv(s) && WorkEnabled(s, t)
    ensures TouchesOnlyInit(s, ApplyWork(s, t).rows, t.w, id)
  {
    hide Inv, UpdateRow, CompareAndSet, Jobs.Apply, Jobs.Enabled, AfterUpdate, AfterMark, AfterFail, AfterReload, RowsAfter;
    hide UpdateWrite, TouchesOnlyInit, ContextDone;
    match t
    case TryUpdate(w, _) => LatestInInit(s, w); RowWriteOnInit(s, w, id);
    case TryMark(w, _) => StatusWriteOnInit(s, w, Healthy, None, s.installs[w].probedAt, id);
    case TryFail(w, _) => StatusWriteOnInit(s, w, Failed, Some(s.installs[w].failure), s.installs[w].probedAt, id);
    case _ => SameTouches(s, t.w, id);
  }

  /** So a late install leaves every row alone that the watchdog, a probe or another worker already moved on. */
  lemma LateInstallIsHarmless(installTimeout: int, states: seq<State>, steps: seq<Step>, n: nat, id: Id)
    requires IsRun(installTimeout, states, steps) && n < |steps| && steps[n].Installing?
    requires id in states[n].rows && states[n].rows[id].status != Init
    ensures id in states[n + 1].rows && states[n + 1].rows[id] == states[n].rows[id]
  {
    RunInv(installTimeout, states, steps, n);
    assert Steps(states[n], steps[n], states[n + 1]);
    hide Inv, ApplyWork;
    WorkerStepTouchesOnlyInit(states[n], steps[n].work, id);
  }

  // ----- what no step undoes -----

  /**
   s' may follow s: a closed repository stays closed with its table frozen, ids stay issued and fenced, and an
   issued id neither appears in the table again, nor goes back to init, nor changes its creation time.
   */
  ghost predicate Later(s: State, s': State) {
    && (s.repoClosed ==> s'.repoClosed && s'.rows == s.rows)
    && s.issued <= s'.issued && s.fenced <= s'.fenced
    && forall id :: id in s.issued && id in s'.rows ==>
         && id in s.rows && s'.rows[id].createdAt == s.rows[id].createdAt
         && (s'.rows[id].status == Init ==> s.rows[id].status == Init)
  }

  lemma LaterTransitive(a: State, b: State, c: State)
    requires Later(a, b) && Later(b, c)
    ensures Later(a, c)
  {}

  lemma CreateLater(s: State, t: CreateStep)
    requires CreateEnabled(s, t) && Coherent(s.rows)
    ensures Later(s, ApplyCreate(s, t)) && ApplyCreate(s, t).sched == s.sched
  {
    hide Later, Coherent, Scanned, Proceed, ApplyInsert, ApplySubmit, ApplyRemove, AddCall, DropCall;
    match t
    case BeginCreate(c, req) => AddLater(s, c, CreateBegun(req));
    case BeginOther(c) => AddLater(s, c, OtherCall);
    case EndOther(c) => ProceedLater(s, c, None);
    case AbortCreate(c) => ProceedLater(s, c, None);
    case LockCreate(c) => SameLater(s, ApplyCreate(s, t));
    case ScanNextPage(c) => ProceedLater(s, c, Scanned(s, s.calls[c].req, s.calls[c].cursor));
    case Insert(c, id, plugins, now) => InsertLater(s, c, id, plugins, now);
    case SubmitJob(c) => SubmitLater(s, c);
    case UndoInsert(c) => RemoveLater(s, c, s.calls[c].id);
  }

  lemma SameLater(s: State, s': State)
    requires s'.rows == s.rows && s'.repoClosed == s.repoClosed && s'.issued == s.issued && s.fenced <= s'.fenced
    ensures Later(s, s')
  {}

  lemma AddLater(s: State, c: nat, call: Call)
    ensures Later(s, AddCall(s, c, call)) && AddCall(s, c, call).sched == s.sched
  {}

  lemma ProceedLater(s: State, c: nat, next: Option<Call>)
    ensures Later(s, Proceed(s, c, next)) && Proceed(s, c, next).sched == s.sched
    ensures Later(s, DropCall(s, c)) && DropCall(s, c).sched == s.sched
  {}

  /** A fresh id is none of those issued before. */
  lemma InsertLater(s: State, c: nat, x: Id, plugins: seq<Attached>, now: int)
    requires c in s.calls && s.calls[c].CreateReady? && x !in s.issued
    ensures Later(s, ApplyInsert(s, c, x, plugins, now)) && ApplyInsert(s, c, x, plugins, now).sched == s.sched
  {
    hide AliasTaken;
  }

  lemma SubmitLater(s: State, c: nat)
    requires c in s.calls && s.calls[c].CreateInserted?
    ensures Later(s, ApplySubmit(s, c)) && ApplySubmit(s, c).sched == s.sched
  {
    hide Jobs.Apply;
  }

  lemma RemoveLater(s: State, c: nat, id: Id)
    ensures Later(s, ApplyRemove(s, c, id)) && ApplyRemove(s, c, id).sched == s.sched
  {}

  lemma DeleteLater(s: State, t: DeleteStep)
    requires DeleteEnabled(s, t)
    ensures Later(s, ApplyDelete(s, t)) && ApplyDelete(s, t).sched == s.sched
  {
    hide Later, Proceed, ApplyTake, ApplyFire, ApplyPass, ApplyRemove, AddCall, DropCall;
    match t
    case BeginDelete(c, id) => AddLater(s, c, DeleteBegun(id));
    case CheckOpen(c) => ProceedLater(s, c, if s.pool.stopped then None else Some(DeleteChecked(s.calls[c].id)));
    case TakeJobs(c) => TakeLater(s, c);
    case FireCancel(c) => FireLater(s, c);
    case PassIdle(c) => PassLater(s, c);
    case GiveUpWait(c) => ProceedLater(s, c, None);
    case LookUp(c) =>
      var id := s.calls[c].id;
      ProceedLater(s, c, if s.repoClosed || id !in s.rows then None else Some(DeleteTearing(id)));
    case RemoveRow(c) => RemoveLater(s, c, s.calls[c].id);
  }

  lemma TakeLater(s: State, c: nat)
    requires c in s.calls && s.calls[c].DeleteChecked?
    ensures Later(s, ApplyTake(s, c)) && ApplyTake(s, c).sched == s.sched
  {
    hide Jobs.Apply;
  }

  lemma FireLater(s: State, c: nat)
    requires c in s.calls && s.calls[c].DeleteTaken?
    ensures Later(s, ApplyFire(s, c)) && ApplyFire(s, c).sched == s.sched
  {}

  lemma PassLater(s: State, c: nat)
    requires c in s.calls && s.calls[c].DeleteWaiting?
    ensures Later(s, ApplyPass(s, c)) && ApplyPass(s, c).sched == s.sched
  {}

  lemma WorkFrame(s: State, t: WorkStep)
    requires WorkEnabled(s, t)
    ensures var d := ApplyWork(s, t);
      && d.issued == s.issued && d.fenced == s.fenced && d.repoClosed == s.repoClosed && d.sched == s.sched
      && (s.repoClosed ==> d.rows == s.rows)
  {
    hide UpdateWrite, MarkWrite, FailWrite, AfterUpdate, AfterMark, AfterFail, AfterReload, Jobs.Apply, Jobs.Enabled;
  }

  lemma TouchesLater(s: State, s': State, w: nat)
    requires s'.repoClosed == s.repoClosed && (s.repoClosed ==> s'.rows == s.rows) && s'.issued == s.issued && s.fenced <= s'.fenced
    requires forall id :: TouchesOnlyInit(s, s'.rows, w, id)
    ensures Later(s, s')
  {
    hide Jobs.Holds;
    forall id | id in s'.rows
      ensures id in s.rows && s'.rows[id].createdAt == s.rows[id].createdAt && (s'.rows[id].status == Init ==> s.rows[id].status == Init)
    {
      assert TouchesOnlyInit(s, s'.rows, w, id);
    }
  }

  lemma WorkLater(s: State, t: WorkStep)
    requires Inv(s) && WorkEnabled(s, t)
    ensures Later(s, ApplyWork(s, t))
  {
    hide Inv, ApplyWork, WorkEnabled, Later, TouchesOnlyInit;
    WorkFrame(s, t);
    forall id ensures TouchesOnlyInit(s, ApplyWork(s, t).rows, t.w, id) { WorkerStepTouchesOnlyInit(s, t, id); }
    TouchesLater(s, ApplyWork(s, t), t.w);
  }

  lemma SchedFrame(s: State, t: SchedStep)
    requires SchedEnabled(s, t) && Coherent(s.rows)
    ensures var d := ApplySched(s, t);
      && d.issued == s.issued && d.fenced == s.fenced && d.repoClosed == s.repoClosed
      && (s.repoClosed ==> d.rows == s.rows)
  {
    hide CompareAndSet, UpdateRow, Coherent, ListedSched, JudgedSched, RecordedProbes;
  }

  lemma SchedNarrows(s: State, t: SchedStep)
    requires Inv(s) && SchedEnabled(s, t) && Coherent(s.rows)
    ensures NarrowsSafely(s.rows, ApplySched(s, t).rows)
  {
    Parts(s);
    hide Inv, Coherent, TableInv, NarrowsSafely, ListedSched, JudgedSched, RecordedProbes, JudgedRows, RecordedRows, RowsAfter;
    match t
    case Judge => JudgedRowsNarrow(s);
    case Record(p) => RecordedRowsNarrow(s, s.probes[p]);
    case WriteProbe(p) => WrittenNarrow(s, p);
    case _ => SameNarrows(s.rows);
  }

  lemma SchedLater(s: State, t: SchedStep)
    requires Inv(s) && SchedEnabled(s, t) && Coherent(s.rows)
    ensures Later(s, ApplySched(s, t))
  {
    SchedFrame(s, t);
    SchedNarrows(s, t);
    hide Inv, ApplySched, SchedEnabled, Coherent;
  }

  lemma StartLater(s: State, t: StartStep)
    requires StartEnabled(s, t)
    ensures Later(s, ApplyStart(s, t))
  {
    hide Later, Jobs.Apply, Jobs.Enabled;
    SameLater(s, ApplyStart(s, t));
  }

  lemma StopLater(s: State, t: StopStep)
    requires StopEnabled(s, t)
    ensures Later(s, ApplyStop(s, t))
  {
    hide Jobs.Apply, Jobs.Enabled;
  }

  lemma StepLater(s: State, t: Step)
    requires Inv(s) && Enabled(s, t) && Coherent(s.rows)
    ensures Later(s, Apply(s, t))
  {
    hide Inv, Later, Coherent;
    hide ApplyCreate, ApplyDelete, ApplyWork, ApplySched, ApplyStart, ApplyStop, CreateEnabled, DeleteEnabled, WorkEnabled, SchedEnabled, StartEnabled, StopEnabled;
    match t
    case Creating(x) => CreateLater(s, x);
    case Deleting(x) => DeleteLater(s, x);
    case Installing(x) => WorkLater(s, x);
    case Scheduling(x) => SchedLater(s, x);
    case Opening(x) => StartLater(s, x);
    case Stopping(x) => StopLater(s, x);
  }

  lemma StepsLater(s: State, t: Step, s': State)
    requires Inv(s) && Steps(s, t, s')
    ensures Later(s, s')
  {
    hide Inv, Later, Enabled, Apply, Coherent;
    StepLater(s, t);
  }

  lemma {:induction false} RunLater(installTimeout: int, states: seq<State>, steps: seq<Step>, i: nat, j: nat)
    requires IsRun(installTimeout, states, steps) && i <= j < |states|
    ensures Later(states[i], states[j])
    decreases j
  {
    hide Inv, Steps, Later, IsRun;
    if i == j {
      SameLater(states[i], states[j]);
    } else {
      RunLength(installTimeout, states, steps);
      RunStep(installTimeout, states, steps, j - 1);
      RunInv(installTimeout, states, steps, j - 1);
      RunLater(installTimeout, states, steps, i, j - 1);
      StepsLater(states[j - 1], steps[j - 1], states[j]);
      LaterTransitive(states[i], states[j - 1], states[j]);
    }
  }

  /** Whatever the outcome of Stop, the table is frozen from its close on. */
  lemma ClosedForGood(installTimeout: int, states: seq<State>, steps: seq<Step>, i: nat, j: nat)
    requires IsRun(installTimeout, states, steps) && i <= j < |states| && states[i].repoClosed
    ensures states[j].repoClosed && states[j].rows == states[i].rows
  {
    hide IsRun;
    RunLater(installTimeout, states, steps, i, j);
  }

  /** An id that was issued and is not in init now. */
  ghost predicate PastInit(s: State, id: Id) {
    id in s.issued && (id in s.rows ==> s.rows[id].status != Init)
  }

  /** Once a row has left init, or is gone, its id is never in init again. */
  lemma NeverBackToInit(installTimeout: int, states: seq<State>, steps: seq<Step>, i: nat, j: nat, id: Id)
    requires IsRun(installTimeout, states, steps) && i <= j < |states| && PastInit(states[i], id)
    ensures PastInit(states[j], id)
  {
    hide IsRun;
    RunLater(installTimeout, states, steps, i, j);
  }

  // ----- the watchdog -----

  /** The rows the scheduler has listed and not yet judged. */
  ghost function Listed(sched: Scheduler): seq<Row> {
    match sched
    case SchedListing(_, rows) => rows
    case SchedJudging(_, rest, _, _) => rest
    case _ => []
  }

  ghost predicate ListedOk(t: Table, issued: set<Id>, r: Row) {
    r.id in issued && (r.id in t ==> t[r.id].createdAt == r.createdAt)
  }

  ghost predicate ListedInv(s: State) {
    forall r :: r in Listed(s.sched) ==> ListedOk(s.rows, s.issued, r)
  }

  /** What is listed after a step was listed before it, or is in the table now. */
  ghost predicate ListsFrom(s: State, s': State) {
    forall r :: r in Listed(s'.sched) ==> r in Listed(s.sched) || (r.id in s.rows && s.rows[r.id] == r)
  }

  lemma ListedKept(s: State, s': State)
    requires ListedInv(s) && Later(s, s') && ListsFrom(s, s') && s.rows.Keys <= s.issued
    ensures ListedInv(s')
  {}

  lemma NextPageLists(s: State, now: int)
    requires s.sched.SchedListing? && WellFormed(s.rows) && Paging.ValidCursor(s.sched.cursor)
    ensures ListsFrom(s, s.(sched := ListedSched(s, now)))
  {
    hide ListPage, Paging.ValidCursor, AfterOf;
    PageCovers(s.rows, EVERYTHING, LIST_PAGE, s.sched.cursor);
  }

  lemma SchedLists(s: State, t: SchedStep)
    requires SchedEnabled(s, t) && Coherent(s.rows) && !t.ListNextPage?
    ensures ListsFrom(s, ApplySched(s, t))
  {
    hide ListedSched, RecordedRows, RecordedProbes, JudgedRows, Coherent, RowsAfter;
  }

  lemma SameSchedLists(s: State, s': State)
    requires s'.sched == s.sched || Listed(s'.sched) == []
    ensures ListsFrom(s, s')
  {}

  lemma StartLists(s: State, t: StartStep)
    requires StartEnabled(s, t)
    ensures ApplyStart(s, t).sched == s.sched || Listed(ApplyStart(s, t).sched) == []
  {
    hide Jobs.Apply, Jobs.Enabled;
  }

  lemma StopLists(s: State, t: StopStep)
    requires StopEnabled(s, t)
    ensures ApplyStop(s, t).sched == s.sched
  {
    hide Jobs.Apply, Jobs.Enabled;
  }

  lemma StepLists(s: State, t: Step)
    requires Inv(s) && Enabled(s, t) && Coherent(s.rows)
    ensures ListsFrom(s, Apply(s, t))
  {
    hide Inv, Coherent, ListsFrom, Later, Listed;
    hide ApplyCreate, ApplyDelete, ApplyWork, ApplySched, ApplyStart, ApplyStop, CreateEnabled, DeleteEnabled, WorkEnabled, SchedEnabled, StartEnabled, StopEnabled;
    match t
    case Creating(x) => CreateLater(s, x); SameSchedLists(s, ApplyCreate(s, x));
    case Deleting(x) => DeleteLater(s, x); SameSchedLists(s, ApplyDelete(s, x));
    case Installing(x) => WorkFrame(s, x); SameSchedLists(s, ApplyWork(s, x));
    case Scheduling(x) => if x.ListNextPage? { ListParts(s); ListStep(s, x); } else { SchedLists(s, x); }
    case Opening(x) => StartLists(s, x); SameSchedLists(s, ApplyStart(s, x));
    case Stopping(x) => StopLists(s, x); SameSchedLists(s, ApplyStop(s, x));
  }

  lemma ListParts(s: State)
    requires Inv(s)
    ensures WellFormed(s.rows) && ProbesInv(s.sched, s.probes)
  {
    Parts(s);
  }

  lemma ListStep(s: State, t: SchedStep)
    requires SchedEnabled(s, t) && t.ListNextPage? && WellFormed(s.rows) && ProbesInv(s.sched, s.probes)
    ensures ListsFrom(s, ApplySched(s, t))
  {
    NextPageLists(s, t.now);
    hide ListedSched, Coherent, NulFree;
  }

  lemma StepsListed(s: State, t: Step, s': State)
    requires Inv(s) && ListedInv(s) && Steps(s, t, s')
    ensures ListedInv(s')
  {
    hide ListedInv, Later, ListsFrom, Enabled, Apply, Coherent;
    StepLater(s, t);
    StepLists(s, t);
    assert s.rows.Keys <= s.issued by { Parts(s); }
    hide Inv;
    ListedKept(s, s');
  }

  lemma {:induction false} RunListed(installTimeout: int, states: seq<State>, steps: seq<Step>, n: nat)
    requires IsRun(installTimeout, states, steps) && n < |states|
    ensures ListedInv(states[n])
  {
    hide Inv, Steps, IsRun;
    RunLength(installTimeout, states, steps);
    if n > 0 {
      hide ListedInv;
      RunListed(installTimeout, states, steps, n - 1);
      RunInv(installTimeout, states, steps, n - 1);
      RunStep(installTimeout, states, steps, n - 1);
      StepsListed(states[n - 1], steps[n - 1], states[n]);
    }
  }

  /** What the judging of one row does to the table. */
  lemma JudgeTouches(s: State, id: Id)
    requires s.sched.SchedJudging? && s.sched.rest != []
    ensures var t := JudgedRows(s);
      && t.Keys == s.rows.Keys
      && (id in s.rows && t[id] != s.rows[id] ==>
            && id == s.sched.rest[0].id && TimedOut(s, s.sched.now, s.sched.rest[0])
            && s.rows[id].status == Init && t[id].status == Failed && t[id].error == Some(TIMEOUT))
  {}

  /**
   The watchdog only ever fails a row that is in init at that instant and, by its stored creation time, older
   than the timeout; and it fails it with the timeout error.
   */
  lemma WatchdogIsRight(installTimeout: int, states: seq<State>, steps: seq<Step>, n: nat, id: Id)
    requires IsRun(installTimeout, states, steps) && n < |steps| && steps[n] == Scheduling(Judge)
    requires id in states[n].rows && id in states[n + 1].rows && states[n + 1].rows[id] != states[n].rows[id]
    ensures var s := states[n];
      && s.sched.SchedJudging? && s.installTimeout > 0 && s.sched.now - s.rows[id].createdAt > s.installTimeout
      && s.rows[id].status == Init
      && states[n + 1].rows[id].status == Failed && states[n + 1].rows[id].error == Some(TIMEOUT)
  {
    RunListed(installTimeout, states, steps, n);
    RunStep(installTimeout, states, steps, n);
    hide IsRun, Coherent, JudgedRows;
    var s := states[n];
    assert s.sched.SchedJudging? && s.sched.rest != [] && states[n + 1].rows == JudgedRows(s);
    JudgeTouches(s, id);
    assert s.sched.rest[0] in Listed(s.sched);
  }

  // ----- an install ends -----

  function Rank(ph: Phase): nat {
    match ph
    case Starting => 13
    case Working => 12
    case Reloading(_, _) => 11
    case Updating(_, _, attempt) => if attempt <= MAX_RETRIES then 10 - attempt else 8
    case Marking(_, attempt) => if attempt <= MAX_RETRIES then 7 - attempt else 5
    case Failing(_, _, attempt) => if attempt <= MAX_RETRIES then 4 - attempt else 2
    case Cleaning => 1
    case Finishing => 0
  }

  lemma ReloadShrinks(s: State, id: Id, ph: Phase)
    requires ph.Reloading?
    ensures Rank(AfterReload(s, id, ph)) < Rank(ph)
    ensures AfterReload(s, id, ph).Cleaning? <==>
      && !s.repoClosed && id in s.rows && s.rows[id].status != Init
      && !(s.rows[id].status == Failed && s.rows[id].error.Some? && s.rows[id].error.value.code == INSTALL_TIMEOUT_CODE)
  {}

  lemma WritesShrink(s: State, ph: Phase, wr: Written, retry: bool)
    ensures ph.Updating? && (retry ==> ph.attempt < MAX_RETRIES) ==> Rank(AfterUpdate(s, ph, wr, retry)) < Rank(ph)
    ensures ph.Marking? && (retry ==> ph.attempt < MAX_RETRIES) ==> Rank(AfterMark(s, ph, wr, retry)) < Rank(ph)
    ensures ph.Failing? && (retry ==> ph.attempt < MAX_RETRIES) ==> Rank(AfterFail(s, ph, wr, retry)) < Rank(ph)
  {
    hide Write, Settles;
  }

  /** Whatever the outcomes and errors, each step of an install brings it nearer its end, which is at most thirteen away. */
  lemma InstallShrinks(s: State, t: WorkStep)
    requires WorkEnabled(s, t) && InPhase(s, t.w) && !t.FinishJob?
    ensures t.w in ApplyWork(s, t).installs && Rank(ApplyWork(s, t).installs[t.w]) < Rank(s.installs[t.w]) <= 13
  {
    hide Rank, AfterReload, AfterUpdate, AfterMark, AfterFail, UpdateWrite, MarkWrite, FailWrite, RowsAfter, ContextDone;
    var ph := s.installs[t.w];
    assert Rank(ph) <= 13 by { RankBound(ph); }
    match t
    case CheckContext(_) => RankSteps();
    case WorkFails(_, _, _) => RankSteps();
    case WorkDone(_, _, _) => RankSteps();
    case CleanUp(_) => RankSteps();
    case Reload(w) => ReloadShrinks(s, JobId(s, w), ph);
    case TryUpdate(w, retry) => WritesShrink(s, ph, UpdateWrite(s, w), retry);
    case TryMark(w, retry) => WritesShrink(s, ph, MarkWrite(s, w), retry);
    case TryFail(w, retry) => WritesShrink(s, ph, FailWrite(s, w), retry);
    case _ =>
  }

  lemma RankBound(ph: Phase)
    ensures Rank(ph) <= 13
  {}

  lemma RankSteps()
    ensures Rank(Starting) == 13 && Rank(Working) == 12 && Rank(Cleaning) == 1 && Rank(Finishing) == 0
    ensures forall a, at :: Rank(Reloading(a, at)) == 11
    ensures forall f, at :: Rank(Failing(f, at, 0)) == 4
  {}

  /** A worker that holds a job can always take its next step. */
  lemma InstallCanMove(s: State, w: nat) returns (t: WorkStep)
    requires InPhase(s, w)
    ensures WorkEnabled(s, t) && t.w == w
  {
    t := match s.installs[w]
      case Starting => CheckContext(w)
      case Working => WorkFails(w, RELOAD, 0)
      case Reloading(_, _) => Reload(w)
      case Updating(_, _, _) => TryUpdate(w, false)
      case Marking(_, _) => TryMark(w, false)
      case Failing(_, _, _) => TryFail(w, false)
      case Cleaning => CleanUp(w)
      case Finishing => FinishJob(w);
  }

  // ----- rows -----

  /** No two stored localdir rows ever have the same cleaned directory. */
  lemma DirectoriesStayUnique(installTimeout: int, states: seq<State>, steps: seq<Step>, n: nat, a: Id, b: Id)
    requires IsRun(installTimeout, states, steps) && n < |states|
    requires a in states[n].rows && b in states[n].rows && a != b && DirOf(states[n].rows[a]).Some?
    ensures DirOf(states[n].rows[a]) != DirOf(states[n].rows[b])
  {
    RunInv(installTimeout, states, steps, n);
  }

  /** A stored row carries an error exactly when it is failed. */
  lemma ErrorIffFailed(installTimeout: int, states: seq<State>, steps: seq<Step>, n: nat, id: Id)
    requires IsRun(installTimeout, states, steps) && n < |states| && id in states[n].rows
    ensures states[n].rows[id].error.Some? <==> states[n].rows[id].status == Failed
  {
    RunInv(installTimeout, states, steps, n);
    assert StatusAgrees(states[n].rows[id]);
  }

  // ----- the delete fence -----

  ghost predicate Settled(s: State, id: Id) {
    && !QueuedFor(s.pool.queue, id)
    && forall w :: !Jobs.Holds(s.pool, w, id)
  }

  lemma FencedIsSettled(s: State, id: Id)
    requires Inv(s) && id in s.fenced
    ensures Settled(s, id)
  {
    var t := s.ticketOf[id];
    forall i | 0 <= i < |s.pool.queue| ensures s.pool.queue[i].id != id {
      assert Ticketed(s.pool.queue[i], s.ticketOf);
      assert s.pool.queue[i].ticket !in s.pool.finished;
    }
    forall w ensures !Jobs.Holds(s.pool, w, id) {
      if w in s.pool.workers && s.pool.workers[w].Running? {
        assert Ticketed(s.pool.workers[w].job, s.ticketOf);
        assert s.pool.workers[w].job.ticket !in s.pool.finished;
      }
    }
  }

  /**
   A delete whose id had been submitted when it emptied the queue, and that passed the wait, is a fence: from
   then on no worker runs, and no queue holds, an install for the id.
   */
  lemma DeleteIsAFence(installTimeout: int, states: seq<State>, steps: seq<Step>, n: nat, c: nat, j: nat)
    requires IsRun(installTimeout, states, steps) && n < |steps| && n < j < |states|
    requires steps[n] == Deleting(PassIdle(c)) && c in states[n].calls && states[n].calls[c].DeleteWaiting? && states[n].calls[c].known
    ensures Settled(states[j], states[n].calls[c].id)
  {
    var id := states[n].calls[c].id;
    assert Steps(states[n], steps[n], states[n + 1]);
    assert id in states[n + 1].fenced by { hide Coherent; }
    RunLater(installTimeout, states, steps, n + 1, j);
    RunInv(installTimeout, states, steps, j);
    hide Inv, Apply, Enabled, Coherent;
    FencedIsSettled(states[j], id);
  }

  /** What the delete saw is what was submitted before it emptied the queue. */
  lemma KnownMeansSubmitted(s: State, c: nat)
    requires Inv(s) && Enabled(s, Deleting(TakeJobs(c)))
    ensures var d := Apply(s, Deleting(TakeJobs(c))).calls[c];
      d.DeleteTaken? && d.id == s.calls[c].id && (d.known <==> d.id in s.ticketOf)
  {
    hide Inv, Jobs.Apply;
  }
}
