/**
 The workspace lifecycle plane as a state machine.

 Install workers, the probe scheduler with its watchdog, creates, deletes, Start and Stop act on one table of
 rows. A step is one mutex-held region, one repository method, or one nondeterministic outcome of code that
 lies outside (factory, Init, plugin placement, Install, Probe, Open, Uninstall, Clear, contexts, clocks).
 */
module Lifecycle {
  import opened Common
  import opened Keys
  import opened Workspaces
  import opened Paging
  import Jobs = InstallPool

  const LIST_PAGE := 100
  const SCAN_PAGE := 200
  const MAX_RETRIES := 2

  datatype Request = Request(key: Key, agentType: string, infraType: string, rawDir: Option<string>, labels: map<string, string>)

  /** Where an API call stands. A create past LockCreate holds the create mutex until it returns. */
  datatype Call =
    | CreateBegun(req: Request)
    | CreateScanning(req: Request, cursor: string)
    | CreateReady(req: Request)
    | CreateInserted(id: Id)
    | CreateRejected(id: Id)
    | DeleteBegun(id: Id)
    | DeleteChecked(id: Id)
    | DeleteTaken(id: Id, known: bool, cancel: Option<nat>)
    | DeleteWaiting(id: Id, known: bool)
    | DeleteIdle(id: Id)
    | DeleteTearing(id: Id)
    | OtherCall

  /** Where an install stands between dequeue and finishTrackedInstall. */
  datatype Phase =
    | Starting
    | Working
    | Reloading(attached: seq<Attached>, probedAt: int)
    | Updating(latest: Row, probedAt: int, attempt: nat)
    | Marking(probedAt: int, attempt: nat)
    | Failing(failure: Failure, probedAt: int, attempt: nat)
    | Cleaning
    | Finishing

  datatype Scheduler =
    | SchedOff
    | SchedIdle
    | SchedListing(cursor: string, rows: seq<Row>)
    | SchedJudging(now: int, rest: seq<Row>, seen: set<Id>, keep: seq<Row>)
    | SchedProbing(rest: seq<Row>)
    | SchedExited

  datatype Probe =
    | Probing(row: Row)
    | Recording(row: Row, next: Status, error: Option<Failure>, probedAt: int)
    | Writing(updated: Row)

  datatype Starter = StartChecked | StartHalf | StartAborting | StartCancelling

  /** The Stop call that performs the shutdown; bad collects the errors of its waits. */
  datatype Stopper =
    | NoStop
    | StopFlagged
    | SchedWait
    | PoolStop(bad: bool)
    | PoolCancel(bad: bool)
    | PoolWait(bad: bool)
    | ApiWait(bad: bool)
    | Closing(bad: bool)
    | Ending(bad: bool)
    | Ended(ok: bool)

  datatype State = State(
    installTimeout: int,
    rows: Table,
    repoClosed: bool,
    pool: Jobs.Pool,
    installs: map<nat, Phase>,
    calls: map<nat, Call>,
    createLock: Option<nat>,
    apiCount: nat,
    sched: Scheduler,
    schedStopped: bool,
    probes: map<nat, Probe>,
    starts: map<nat, Starter>,
    stop: Stopper,
    // history
    issued: set<Id>,
    ticketOf: map<Id, nat>,
    fenced: set<Id>)

  function Initial(installTimeout: int): State {
    State(installTimeout, map[], false, Jobs.NewPool(), map[], map[], None, 0, SchedOff, false, map[], map[], NoStop, {}, map[], {})
  }

  /** Create calls, and the calls that touch no row. */
  datatype CreateStep =
    | BeginCreate(c: nat, req: Request)
    | BeginOther(c: nat)
    | EndOther(c: nat)
    | AbortCreate(c: nat)
    | LockCreate(c: nat)
    | ScanNextPage(c: nat)
    | Insert(c: nat, id: Id, plugins: seq<Attached>, now: int)
    | SubmitJob(c: nat)
    | UndoInsert(c: nat)

  /** Delete calls. */
  datatype DeleteStep =
    | BeginDelete(c: nat, id: Id)
    | CheckOpen(c: nat)
    | TakeJobs(c: nat)
    | FireCancel(c: nat)
    | PassIdle(c: nat)
    | GiveUpWait(c: nat)
    | LookUp(c: nat)
    | RemoveRow(c: nat)

  /** Install workers. */
  datatype WorkStep =
    | DequeueJob(w: nat)
    | QuitWorker(w: nat)
    | LeaveWorker(w: nat)
    | CheckContext(w: nat)
    | WorkFails(w: nat, failure: Failure, probedAt: int)
    | WorkDone(w: nat, attached: seq<Attached>, probedAt: int)
    | Reload(w: nat)
    | TryUpdate(w: nat, retry: bool)
    | TryMark(w: nat, retry: bool)
    | TryFail(w: nat, retry: bool)
    | CleanUp(w: nat)
    | FinishJob(w: nat)

  /** The probe scheduler and its watchdog. */
  datatype SchedStep =
    | Tick
    | ListNextPage(now: int)
    | Judge
    | StartProbes
    | Dispatch(p: nat)
    | DropRest
    | ProbeQuits(p: nat)
    | ProbeOutcome(p: nat, next: Status, error: Option<Failure>, probedAt: int)
    | Record(p: nat)
    | WriteProbe(p: nat)
    | EndTick
    | ExitLoop

  /** Start calls. */
  datatype StartStep =
    | StartCheck(c: nat)
    | StartPool(c: nat, n: nat)
    | StartScheduler(c: nat)
    | StartUndo(c: nat)
    | StartCancel(c: nat)

  /** The Stop call that performs the shutdown. */
  datatype StopStep =
    | StopBegin
    | StopScheduler
    | StopSchedWaited(ok: bool)
    | StopPool
    | StopCancel
    | StopPoolWaited(ok: bool)
    | StopApiWaited(ok: bool)
    | StopClose
    | StopEnd

  datatype Step =
    | Creating(create: CreateStep)
    | Deleting(delete: DeleteStep)
    | Installing(work: WorkStep)
    | Scheduling(sched: SchedStep)
    | Opening(start: StartStep)
    | Stopping(stop: StopStep)

  // ----- small parts -----

  predicate NamespaceByte(b: Byte) {
    'a' as int <= b <= 'z' as int || '0' as int <= b <= '9' as int || b == '-' as int
  }

  /** The namespace pattern: one to thirty-two of [a-z0-9-]. */
  predicate ValidNamespace(ns: Text) {
    1 <= |ns| <= 32 && forall i :: 0 <= i < |ns| ==> NamespaceByte(ns[i])
  }

  function WantDir(req: Request): Option<string> { DirOption(req.infraType, req.rawDir) }

  function NewRow(req: Request, id: Id, plugins: seq<Attached>, now: int): Row {
    Row(id, req.key, req.agentType, req.infraType, req.rawDir, plugins, Init, None, req.labels, now, 0)
  }

  const ScanFilter := EVERYTHING.(infraType := LOCALDIR)

  function OpenGuard(s: State): bool { s.stop.NoStop? }

  function DropCall(s: State, c: nat): State {
    s.(calls := s.calls - {c},
       apiCount := if s.apiCount > 0 then s.apiCount - 1 else 0,
       createLock := if s.createLock == Some(c) then None else s.createLock)
  }

  function AddCall(s: State, c: nat, call: Call): State {
    s.(calls := s.calls[c := call], apiCount := s.apiCount + 1)
  }

  /** The call goes on as next, or returns. */
  function Proceed(s: State, c: nat, next: Option<Call>): State {
    if next.Some? then s.(calls := s.calls[c := next.value]) else DropCall(s, c)
  }

  function Write(s: State, w: Written): Written {
    if s.repoClosed then Err(Closed) else w
  }

  function RowsAfter(s: State, w: Written): Table {
    if Write(s, w).Ok? then w.value else s.rows
  }

  // retryRepoWrite treats a lost race on the status as success where the caller says so.
  predicate Settles(s: State, w: Written) {
    Write(s, w).Ok? || Write(s, w) == Err(PreconditionFailed)
  }

  function FailWrite(s: State, w: nat): Written
    requires w in s.pool.workers && s.pool.workers[w].Running? && w in s.installs && s.installs[w].Failing?
  {
    CompareAndSet(s.rows, s.pool.workers[w].job.id, ByController, Init, Failed, Some(s.installs[w].failure), s.installs[w].probedAt)
  }

  function MarkWrite(s: State, w: nat): Written
    requires w in s.pool.workers && s.pool.workers[w].Running? && w in s.installs && s.installs[w].Marking?
  {
    CompareAndSet(s.rows, s.pool.workers[w].job.id, ByController, Init, Healthy, None, s.installs[w].probedAt)
  }

  predicate ContextDone(s: State, w: nat)
    requires w in s.pool.workers && s.pool.workers[w].Running?
  {
    s.pool.rootCancelled || s.pool.workers[w].token in s.pool.cancelled
  }

  const SHUTDOWN := Failure("shutdown", "install")
  const RELOAD := Failure("install.error", "install")
  const PERSIST := Failure("install.error", "install")
  const MARK := Failure("status.error", "status")
  const TIMEOUT := Failure(INSTALL_TIMEOUT_CODE, "install")

  predicate TimedOut(s: State, now: int, row: Row) {
    row.status == Init && s.installTimeout > 0 && now - row.createdAt > s.installTimeout
  }

  // What a probe may report: healthy with no error, or failed with one.
  predicate Reported(next: Status, error: Option<Failure>) {
    (next == Healthy && error == None) || (next == Failed && error.Some?)
  }

  predicate InPhase(s: State, w: nat) {
    w in s.pool.workers && s.pool.workers[w].Running? && w in s.installs
  }

  function JobId(s: State, w: nat): Id
    requires InPhase(s, w)
  {
    s.pool.workers[w].job.id
  }

  function InScan(s: State, c: nat): bool { c in s.calls && s.calls[c].CreateScanning? }

  // ----- the step relation -----

  predicate CreateEnabled(s: State, t: CreateStep) {
    match t
    case BeginCreate(c, _) => OpenGuard(s) && c !in s.calls
    case BeginOther(c) => OpenGuard(s) && c !in s.calls
    case EndOther(c) => c in s.calls && s.calls[c].OtherCall?
    case AbortCreate(c) => c in s.calls && (s.calls[c].CreateBegun? || s.calls[c].CreateScanning? || s.calls[c].CreateReady?)
    case LockCreate(c) =>
      c in s.calls && s.calls[c].CreateBegun? && ValidNamespace(s.calls[c].req.key.ns) && s.createLock.None?
    case ScanNextPage(c) => InScan(s, c)
    case Insert(c, id, _, _) => c in s.calls && s.calls[c].CreateReady? && id !in s.issued
    case SubmitJob(c) => c in s.calls && s.calls[c].CreateInserted?
    case UndoInsert(c) => c in s.calls && s.calls[c].CreateRejected?
  }

  predicate DeleteEnabled(s: State, t: DeleteStep) {
    match t
    case BeginDelete(c, _) => OpenGuard(s) && c !in s.calls
    case CheckOpen(c) => c in s.calls && s.calls[c].DeleteBegun?
    case TakeJobs(c) => c in s.calls && s.calls[c].DeleteChecked?
    case FireCancel(c) => c in s.calls && s.calls[c].DeleteTaken?
    case PassIdle(c) => c in s.calls && s.calls[c].DeleteWaiting? && s.calls[c].id !in s.pool.installRunning
    case GiveUpWait(c) => c in s.calls && s.calls[c].DeleteWaiting? && s.calls[c].id in s.pool.installRunning
    case LookUp(c) => c in s.calls && s.calls[c].DeleteIdle?
    case RemoveRow(c) => c in s.calls && s.calls[c].DeleteTearing?
  }

  ghost predicate PageHasDir(rows: seq<Row>, want: Option<string>) {
    exists r :: r in rows && DirOf(r) == want
  }

  function ApplyLock(s: State, c: nat): State
    requires c in s.calls && s.calls[c].CreateBegun?
  {
    var req := s.calls[c].req;
    s.(createLock := Some(c), calls := s.calls[c := if WantDir(req).Some? then CreateScanning(req, "") else CreateReady(req)])
  }

  /** One page of the uniqueness scan: an error or the wanted directory ends the create. */
  ghost function Scanned(s: State, req: Request, cursor: string): Option<Call>
    requires Coherent(s.rows)
  {
    var page := ListPage(s.rows, ScanFilter, SCAN_PAGE, cursor);
    if s.repoClosed || page.Err? || PageHasDir(page.value.rows, WantDir(req)) then None
    else if page.value.next == "" then Some(CreateReady(req))
    else Some(CreateScanning(req, page.value.next))
  }

  ghost function ApplyInsert(s: State, c: nat, id: Id, plugins: seq<Attached>, now: int): State
    requires c in s.calls && s.calls[c].CreateReady?
  {
    var w := InsertRow(s.rows, NewRow(s.calls[c].req, id, plugins, now));
    var s' := s.(issued := s.issued + {id});
    if Write(s, w).Ok? then s'.(rows := w.value, calls := s.calls[c := CreateInserted(id)])
    else DropCall(s', c)
  }

  function ApplySubmit(s: State, c: nat): State
    requires c in s.calls && s.calls[c].CreateInserted?
  {
    var id := s.calls[c].id;
    if Jobs.Accepts(s.pool) then
      DropCall(s.(ticketOf := s.ticketOf[id := s.pool.nextTicket], pool := Jobs.Apply(s.pool, Jobs.Submit(id))), c)
    else s.(calls := s.calls[c := CreateRejected(id)])
  }

  function ApplyRemove(s: State, c: nat, id: Id): State {
    DropCall(s.(rows := RowsAfter(s, DeleteRow(s.rows, id))), c)
  }

  ghost function ApplyCreate(s: State, t: CreateStep): State
    requires CreateEnabled(s, t) && Coherent(s.rows)
  {
    match t
    case BeginCreate(c, req) => AddCall(s, c, CreateBegun(req))
    case BeginOther(c) => AddCall(s, c, OtherCall)
    case EndOther(c) => DropCall(s, c)
    case AbortCreate(c) => DropCall(s, c)
    case LockCreate(c) => ApplyLock(s, c)
    case ScanNextPage(c) => Proceed(s, c, Scanned(s, s.calls[c].req, s.calls[c].cursor))
    case Insert(c, id, plugins, now) => ApplyInsert(s, c, id, plugins, now)
    case SubmitJob(c) => ApplySubmit(s, c)
    case UndoInsert(c) => ApplyRemove(s, c, s.calls[c].id)
  }

  function ApplyTake(s: State, c: nat): State
    requires c in s.calls && s.calls[c].DeleteChecked?
  {
    var id := s.calls[c].id;
    var cancel := if id in s.pool.installCancel then Some(s.pool.installCancel[id]) else None;
    s.(pool := Jobs.Apply(s.pool, Jobs.TakeQueued(id)), calls := s.calls[c := DeleteTaken(id, id in s.ticketOf, cancel)])
  }

  function ApplyFire(s: State, c: nat): State
    requires c in s.calls && s.calls[c].DeleteTaken?
  {
    var d := s.calls[c];
    s.(pool := CancelIf(s.pool, d.cancel), calls := s.calls[c := DeleteWaiting(d.id, d.known)])
  }

  function ApplyPass(s: State, c: nat): State
    requires c in s.calls && s.calls[c].DeleteWaiting?
  {
    var d := s.calls[c];
    s.(calls := s.calls[c := DeleteIdle(d.id)], fenced := if d.known then s.fenced + {d.id} else s.fenced)
  }

  function ApplyDelete(s: State, t: DeleteStep): State
    requires DeleteEnabled(s, t)
  {
    match t
    case BeginDelete(c, id) => AddCall(s, c, DeleteBegun(id))
    case CheckOpen(c) => Proceed(s, c, if s.pool.stopped then None else Some(DeleteChecked(s.calls[c].id)))
    case TakeJobs(c) => ApplyTake(s, c)
    case FireCancel(c) => ApplyFire(s, c)
    case PassIdle(c) => ApplyPass(s, c)
    case GiveUpWait(c) => DropCall(s, c)
    case LookUp(c) =>
      var id := s.calls[c].id;
      Proceed(s, c, if s.repoClosed || id !in s.rows then None else Some(DeleteTearing(id)))
    case RemoveRow(c) => ApplyRemove(s, c, s.calls[c].id)
  }

  function CancelIf(p: Jobs.Pool, token: Option<nat>): Jobs.Pool {
    if token.Some? then p.(cancelled := p.cancelled + {token.value}) else p
  }

  predicate WorkEnabled(s: State, t: WorkStep) {
    match t
    case DequeueJob(w) => Jobs.Enabled(s.pool, Jobs.Dequeue(w))
    case QuitWorker(w) => Jobs.Enabled(s.pool, Jobs.Quit(w))
    case LeaveWorker(w) => Jobs.Enabled(s.pool, Jobs.Leave(w))
    case CheckContext(w) => InPhase(s, w) && s.installs[w].Starting?
    case WorkFails(w, _, _) => InPhase(s, w) && s.installs[w].Working?
    case WorkDone(w, _, _) => InPhase(s, w) && s.installs[w].Working?
    case Reload(w) => InPhase(s, w) && s.installs[w].Reloading?
    case TryUpdate(w, retry) => InPhase(s, w) && s.installs[w].Updating? && (retry ==> s.installs[w].attempt < MAX_RETRIES)
    case TryMark(w, retry) => InPhase(s, w) && s.installs[w].Marking? && (retry ==> s.installs[w].attempt < MAX_RETRIES)
    case TryFail(w, retry) => InPhase(s, w) && s.installs[w].Failing? && (retry ==> s.installs[w].attempt < MAX_RETRIES)
    case CleanUp(w) => InPhase(s, w) && s.installs[w].Cleaning?
    case FinishJob(w) => InPhase(s, w) && s.installs[w].Finishing?
  }

  function AfterReload(s: State, id: Id, phase: Phase): Phase
    requires phase.Reloading?
  {
    if s.repoClosed || id !in s.rows then Failing(RELOAD, 0, 0)
    else
      var latest := s.rows[id];
      if latest.status != Init then
        if latest.status == Failed && latest.error.Some? && latest.error.value.code == INSTALL_TIMEOUT_CODE then Finishing
        else Cleaning
      else Updating(latest.(plugins := phase.attached), phase.probedAt, 0)
  }

  /** One attempt at writing the attached plugins back; MarkWrite and FailWrite are the status writes. */
  function UpdateWrite(s: State, w: nat): Written
    requires InPhase(s, w) && s.installs[w].Updating?
  {
    UpdateRow(s.rows, s.installs[w].latest)
  }

  function AfterUpdate(s: State, ph: Phase, wr: Written, retry: bool): Phase
    requires ph.Updating?
  {
    if Write(s, wr).Ok? then Marking(ph.probedAt, 0)
    else if retry then Updating(ph.latest, ph.probedAt, ph.attempt + 1)
    else Failing(PERSIST, 0, 0)
  }

  function AfterMark(s: State, ph: Phase, wr: Written, retry: bool): Phase
    requires ph.Marking?
  {
    if Settles(s, wr) then Finishing
    else if retry then Marking(ph.probedAt, ph.attempt + 1)
    else Failing(MARK, 0, 0)
  }

  function AfterFail(s: State, ph: Phase, wr: Written, retry: bool): Phase
    requires ph.Failing?
  {
    if Settles(s, wr) then Finishing
    else if retry then Failing(ph.failure, ph.probedAt, ph.attempt + 1)
    else Finishing
  }

  function Installed(s: State, w: nat, wr: Written, next: Phase): State {
    s.(rows := RowsAfter(s, wr), installs := s.installs[w := next])
  }

  function ApplyWork(s: State, t: WorkStep): State
    requires WorkEnabled(s, t)
  {
    match t
    case DequeueJob(w) => s.(pool := Jobs.Apply(s.pool, Jobs.Dequeue(w)), installs := s.installs[w := Starting])
    case QuitWorker(w) => s.(pool := Jobs.Apply(s.pool, Jobs.Quit(w)))
    case LeaveWorker(w) => s.(pool := Jobs.Apply(s.pool, Jobs.Leave(w)))
    case CheckContext(w) =>
      s.(installs := s.installs[w := if ContextDone(s, w) then Failing(SHUTDOWN, 0, 0) else Working])
    case WorkFails(w, failure, probedAt) => s.(installs := s.installs[w := Failing(failure, probedAt, 0)])
    case WorkDone(w, attached, probedAt) => s.(installs := s.installs[w := Reloading(attached, probedAt)])
    case Reload(w) => s.(installs := s.installs[w := AfterReload(s, JobId(s, w), s.installs[w])])
    case TryUpdate(w, retry) => Installed(s, w, UpdateWrite(s, w), AfterUpdate(s, s.installs[w], UpdateWrite(s, w), retry))
    case TryMark(w, retry) => Installed(s, w, MarkWrite(s, w), AfterMark(s, s.installs[w], MarkWrite(s, w), retry))
    case TryFail(w, retry) => Installed(s, w, FailWrite(s, w), AfterFail(s, s.installs[w], FailWrite(s, w), retry))
    case CleanUp(w) => s.(installs := s.installs[w := Finishing])
    case FinishJob(w) => s.(pool := Jobs.Apply(s.pool, Jobs.Finish(w)), installs := s.installs - {w})
  }

  predicate SchedEnabled(s: State, t: SchedStep) {
    match t
    case Tick => s.sched.SchedIdle?
    case ListNextPage(_) => s.sched.SchedListing?
    case Judge => s.sched.SchedJudging? && s.sched.rest != []
    case StartProbes => s.sched.SchedJudging? && s.sched.rest == []
    case Dispatch(p) => s.sched.SchedProbing? && s.sched.rest != [] && p !in s.probes
    case DropRest => s.sched.SchedProbing? && s.schedStopped
    case ProbeQuits(p) => p in s.probes && s.probes[p].Probing? && s.schedStopped
    case ProbeOutcome(p, next, error, _) => p in s.probes && s.probes[p].Probing? && Reported(next, error)
    case Record(p) => p in s.probes && s.probes[p].Recording?
    case WriteProbe(p) => p in s.probes && s.probes[p].Writing?
    case EndTick => s.sched.SchedProbing? && s.sched.rest == [] && s.probes == map[]
    case ExitLoop => s.sched.SchedIdle? && s.schedStopped
  }

  /** listAll reads one more page; the last one starts the judging. */
  ghost function ListedSched(s: State, now: int): Scheduler
    requires s.sched.SchedListing? && Coherent(s.rows)
  {
    var page := ListPage(s.rows, EVERYTHING, LIST_PAGE, s.sched.cursor);
    if s.repoClosed || page.Err? then SchedIdle
    else if page.value.next == "" then SchedJudging(now, s.sched.rows + page.value.rows, {}, [])
    else SchedListing(page.value.next, s.sched.rows + page.value.rows)
  }

  /** The next listed row is judged: an overdue init row is failed, a settled one is kept for probing. */
  function ApplyJudge(s: State): State
    requires s.sched.SchedJudging? && s.sched.rest != []
  {
    s.(sched := JudgedSched(s.sched), rows := JudgedRows(s))
  }

  function JudgedSched(j: Scheduler): Scheduler
    requires j.SchedJudging? && j.rest != []
  {
    var row := j.rest[0];
    var keep := if row.id !in j.seen && (row.status == Healthy || row.status == Failed) then j.keep + [row] else j.keep;
    SchedJudging(j.now, j.rest[1..], j.seen + {row.id}, keep)
  }

  function JudgedRows(s: State): Table
    requires s.sched.SchedJudging? && s.sched.rest != []
  {
    var row := s.sched.rest[0];
    if row.id !in s.sched.seen && TimedOut(s, s.sched.now, row) then
      RowsAfter(s, CompareAndSet(s.rows, row.id, ByScheduler, Init, Failed, Some(TIMEOUT), 0))
    else s.rows
  }

  /** recordProbeOutcome: a changed status is a compare-and-set, an unchanged one a reload before the whole-row write. */
  function ApplyRecord(s: State, p: nat): State
    requires p in s.probes && s.probes[p].Recording?
  {
    s.(rows := RecordedRows(s, s.probes[p]), probes := RecordedProbes(s, p))
  }

  function RecordedRows(s: State, r: Probe): Table
    requires r.Recording?
  {
    if r.row.status != r.next then
      RowsAfter(s, CompareAndSet(s.rows, r.row.id, ByScheduler, r.row.status, r.next, r.error, r.probedAt))
    else s.rows
  }

  function RecordedProbes(s: State, p: nat): map<nat, Probe>
    requires p in s.probes && s.probes[p].Recording?
  {
    var r := s.probes[p];
    if r.row.status != r.next || s.repoClosed || r.row.id !in s.rows || s.rows[r.row.id].status != r.next then s.probes - {p}
    else s.probes[p := Writing(Probed(s.rows[r.row.id], r))]
  }

  function Probed(latest: Row, r: Probe): Row
    requires r.Recording?
  {
    latest.(lastProbeAt := r.probedAt, error := if r.next == Healthy then None else r.error)
  }

  ghost function ApplySched(s: State, t: SchedStep): State
    requires SchedEnabled(s, t) && Coherent(s.rows)
  {
    match t
    case Tick => s.(sched := SchedListing("", []))
    case ListNextPage(now) => s.(sched := ListedSched(s, now))
    case Judge => ApplyJudge(s)
    case StartProbes => s.(sched := SchedProbing(s.sched.keep))
    case Dispatch(p) => s.(sched := SchedProbing(s.sched.rest[1..]), probes := s.probes[p := Probing(s.sched.rest[0])])
    case DropRest => s.(sched := SchedProbing([]))
    case ProbeQuits(p) => s.(probes := s.probes - {p})
    case ProbeOutcome(p, next, error, probedAt) =>
      s.(probes := s.probes[p := Recording(s.probes[p].row, next, error, probedAt)])
    case Record(p) => ApplyRecord(s, p)
    case WriteProbe(p) =>
      s.(rows := RowsAfter(s, UpdateRow(s.rows, s.probes[p].updated)), probes := s.probes - {p})
    case EndTick => s.(sched := SchedIdle)
    case ExitLoop => s.(sched := SchedExited)
  }

  predicate StartEnabled(s: State, t: StartStep) {
    match t
    case StartCheck(c) => OpenGuard(s) && c !in s.starts
    case StartPool(c, n) => c in s.starts && s.starts[c].StartChecked? && n > 0
    case StartScheduler(c) => c in s.starts && s.starts[c].StartHalf?
    case StartUndo(c) => c in s.starts && s.starts[c].StartAborting?
    case StartCancel(c) => c in s.starts && s.starts[c].StartCancelling?
  }

  function StopAccepting(p: Jobs.Pool): Jobs.Pool {
    if p.stopped then p else Jobs.Apply(p, Jobs.SetStopped)
  }

  function ApplyStart(s: State, t: StartStep): State
    requires StartEnabled(s, t)
  {
    match t
    case StartCheck(c) => s.(starts := s.starts[c := StartChecked])
    case StartPool(c, n) =>
      s.(pool := if Jobs.Enabled(s.pool, Jobs.Start(n)) then Jobs.Apply(s.pool, Jobs.Start(n)) else s.pool,
         starts := if s.pool.stopped then s.starts - {c} else s.starts[c := StartHalf])
    case StartScheduler(c) =>
      s.(starts := if s.schedStopped then s.starts[c := StartAborting] else s.starts - {c},
         sched := if s.sched.SchedOff? && !s.schedStopped then SchedIdle else s.sched)
    case StartUndo(c) =>
      s.(pool := StopAccepting(s.pool),
         starts := if s.pool.stopped then s.starts - {c} else s.starts[c := StartCancelling])
    case StartCancel(c) => s.(pool := s.pool.(rootCancelled := true), starts := s.starts - {c})
  }

  predicate StopEnabled(s: State, t: StopStep) {
    match t
    case StopBegin => s.stop.NoStop?
    case StopScheduler => s.stop.StopFlagged?
    case StopSchedWaited(ok) => s.stop.SchedWait? && (ok ==> s.sched.SchedExited?)
    case StopPool => s.stop.PoolStop?
    case StopCancel => s.stop.PoolCancel?
    case StopPoolWaited(ok) => s.stop.PoolWait? && (ok ==> s.pool.doneCloses > 0)
    case StopApiWaited(ok) => s.stop.ApiWait? && (ok ==> s.apiCount == 0)
    case StopClose => s.stop.Closing?
    case StopEnd => s.stop.Ending?
  }

  /** The first controller stop closes the pool and cancels it next; a later one only waits. */
  function AfterPoolStop(p: Jobs.Pool, bad: bool): Stopper {
    if !p.started then ApiWait(bad) else if p.stopped then PoolWait(bad) else PoolCancel(bad)
  }

  function ApplyStop(s: State, t: StopStep): State
    requires StopEnabled(s, t)
  {
    match t
    case StopBegin => s.(stop := StopFlagged)
    case StopScheduler => s.(schedStopped := true, stop := if s.sched.SchedOff? then PoolStop(false) else SchedWait)
    case StopSchedWaited(ok) => s.(stop := PoolStop(!ok))
    case StopPool => s.(pool := StopAccepting(s.pool), stop := AfterPoolStop(s.pool, s.stop.bad))
    case StopCancel => s.(pool := s.pool.(rootCancelled := true), stop := PoolWait(s.stop.bad))
    case StopPoolWaited(ok) => s.(stop := ApiWait(s.stop.bad || !ok))
    case StopApiWaited(ok) => s.(stop := Closing(s.stop.bad || !ok))
    case StopClose => s.(repoClosed := true, stop := Ending(s.stop.bad))
    case StopEnd => s.(stop := Ended(!s.stop.bad))
  }

  predicate Enabled(s: State, t: Step) {
    match t
    case Creating(x) => CreateEnabled(s, x)
    case Deleting(x) => DeleteEnabled(s, x)
    case Installing(x) => WorkEnabled(s, x)
    case Scheduling(x) => SchedEnabled(s, x)
    case Opening(x) => StartEnabled(s, x)
    case Stopping(x) => StopEnabled(s, x)
  }

  ghost function Apply(s: State, t: Step): State
    requires Enabled(s, t) && Coherent(s.rows)
  {
    match t
    case Creating(x) => ApplyCreate(s, x)
    case Deleting(x) => ApplyDelete(s, x)
    case Installing(x) => ApplyWork(s, x)
    case Scheduling(x) => ApplySched(s, x)
    case Opening(x) => ApplyStart(s, x)
    case Stopping(x) => ApplyStop(s, x)
  }
}
