/** What a scheduler tick does: nobody overdue is missed, every settled row is probed, and what a probe finds is stored. */
module LifecycleTicks {
  import opened Common
  import opened Keys
  import opened Workspaces
  import opened Paging
  import opened Lifecycle
  import opened LifecycleInv
  import opened LifecycleTheorems
  import opened LifecycleHistory
  import opened LifecycleShutdown
  import LifecycleRequests
  import LifecycleInstalls
  import LifecycleSched
  import Jobs = InstallPool

  // ----- the outcome of each step, written out -----

  /** The row was created longer ago than the timeout, which is on. */
  ghost predicate Overdue(s: State, now: int, createdAt: int) { 0 < s.installTimeout && now - createdAt > s.installTimeout }

  /** The first entry of an id decides: overdue in init is failed, settled is kept for probing. */
  lemma JudgeOutcome(s: State, now: int, rest: seq<Row>, seen: set<Id>, keep: seq<Row>)
    requires s.sched == SchedJudging(now, rest, seen, keep) && rest != []
    ensures Enabled(s, Scheduling(Judge))
    ensures var row := rest[0];
      ApplyJudge(s) == s.(
        sched := SchedJudging(now, rest[1..], seen + {row.id},
          if row.id !in seen && (row.status == Healthy || row.status == Failed) then keep + [row] else keep),
        rows :=
          if row.id !in seen && row.status == Init && Overdue(s, now, row.createdAt) && LifecycleInstalls.Open(s, row.id) then
            s.rows[row.id := s.rows[row.id].(status := Failed, error := Some(Failure("install.timeout", "install")), lastProbeAt := 0)]
          else s.rows)
  {}

  /** A page of a hundred rows; the last one starts the judging, an error ends the tick. */
  lemma ListOutcome(s: State, now: int, cursor: string, rows: seq<Row>)
    requires s.sched == SchedListing(cursor, rows) && Coherent(s.rows) && ValidCursor(cursor)
    ensures Enabled(s, Scheduling(ListNextPage(now)))
    ensures var d, page := ApplySched(s, ListNextPage(now)), ListPage(s.rows, EVERYTHING, 100, cursor);
      && page.Ok?
      && d == s.(sched := if s.repoClosed then SchedIdle
                          else if page.value.next == "" then SchedJudging(now, rows + page.value.rows, {}, [])
                          else SchedListing(page.value.next, rows + page.value.rows))
  {
    hide Listing, CutPage, Coherent;
  }

  lemma LoopOutcome(s: State, p: nat)
    requires Coherent(s.rows)
    ensures Enabled(s, Scheduling(Tick)) <==> s.sched == SchedIdle
    ensures s.sched == SchedIdle ==> ApplySched(s, Tick) == s.(sched := SchedListing("", []))
    ensures Enabled(s, Scheduling(StartProbes)) <==> s.sched.SchedJudging? && s.sched.rest == []
    ensures s.sched.SchedJudging? && s.sched.rest == [] ==> ApplySched(s, StartProbes) == s.(sched := SchedProbing(s.sched.keep))
    ensures Enabled(s, Scheduling(Dispatch(p))) <==> s.sched.SchedProbing? && s.sched.rest != [] && p !in s.probes
    ensures s.sched.SchedProbing? && s.sched.rest != [] && p !in s.probes ==>
      ApplySched(s, Dispatch(p)) == s.(sched := SchedProbing(s.sched.rest[1..]), probes := s.probes[p := Probing(s.sched.rest[0])])
    ensures Enabled(s, Scheduling(DropRest)) <==> s.sched.SchedProbing? && s.schedStopped
    ensures Enabled(s, Scheduling(DropRest)) ==> ApplySched(s, DropRest) == s.(sched := SchedProbing([]))
    ensures Enabled(s, Scheduling(EndTick)) <==> s.sched == SchedProbing([]) && s.probes == map[]
    ensures s.sched == SchedProbing([]) && s.probes == map[] ==> ApplySched(s, EndTick) == s.(sched := SchedIdle)
    ensures Enabled(s, Scheduling(ExitLoop)) <==> s.sched == SchedIdle && s.schedStopped
    ensures s.sched == SchedIdle && s.schedStopped ==> ApplySched(s, ExitLoop) == s.(sched := SchedExited)
  {
    hide Coherent;
  }

  lemma OutcomeStep(s: State, p: nat, next: Status, error: Option<Failure>, at: int)
    requires Coherent(s.rows) && p in s.probes && s.probes[p].Probing?
    ensures Enabled(s, Scheduling(ProbeOutcome(p, next, error, at))) <==>
      (next == Healthy && error == None) || (next == Failed && error.Some?)
    ensures Enabled(s, Scheduling(ProbeOutcome(p, next, error, at))) ==>
      ApplySched(s, ProbeOutcome(p, next, error, at)) == s.(probes := s.probes[p := Recording(s.probes[p].row, next, error, at)])
    ensures Enabled(s, Scheduling(ProbeQuits(p))) <==> s.schedStopped
    ensures s.schedStopped ==> ApplySched(s, ProbeQuits(p)) == s.(probes := s.probes - {p})
  {
    hide Coherent;
  }

  /** The row is stored with the status the probe was told of. */
  ghost predicate Current(s: State, row: Row) { !s.repoClosed && row.id in s.rows && s.rows[row.id].status == row.status }

  /** What a row becomes with a probe's finding. */
  function Found(row: Row, next: Status, error: Option<Failure>, at: int): Row {
    row.(status := next, error := error, lastProbeAt := at)
  }

  /** A changed status is stored at once, if the row still has the status it was listed with; an unchanged one is read again first. */
  lemma RecordOutcome(s: State, p: nat, row: Row, next: Status, error: Option<Failure>, at: int)
    requires p in s.probes && s.probes[p] == Recording(row, next, error, at) && Reported(next, error)
    requires row.status == Healthy || row.status == Failed
    ensures Enabled(s, Scheduling(Record(p)))
    ensures ApplyRecord(s, p) ==
      if !Current(s, row) then s.(probes := s.probes - {p})
      else if row.status != next then s.(rows := s.rows[row.id := Found(s.rows[row.id], next, error, at)], probes := s.probes - {p})
      else s.(probes := s.probes[p := Writing(Found(s.rows[row.id], next, error, at))])
  {}

  /** The row read again is written back whole, over a row that still has its status. */
  lemma WriteOutcome(s: State, p: nat, row: Row)
    requires Coherent(s.rows) && p in s.probes && s.probes[p] == Writing(row) && (row.status == Healthy || row.status == Failed)
    requires row.id in s.rows ==> SameImmutable(s.rows[row.id], row)
    ensures Enabled(s, Scheduling(WriteProbe(p)))
    ensures ApplySched(s, WriteProbe(p)) ==
      if Current(s, row) then s.(rows := s.rows[row.id := row.(createdAt := s.rows[row.id].createdAt)], probes := s.probes - {p})
      else s.(probes := s.probes - {p})
  {
    hide Coherent;
  }

  // ----- a probe from end to end -----

  lemma SchedGoesOn(s: State, ts: seq<Step>, m: State, t: SchedStep)
    requires Leads(s, ts, m) && Coherent(m.rows) && SchedEnabled(m, t)
    ensures Leads(s, ts + [Scheduling(t)], ApplySched(m, t))
  {
    hide Leads, Coherent, SchedEnabled, ApplySched;
    SchedStepIs(m, t);
    hide Steps;
    LeadsThen(s, ts, m, Scheduling(t), ApplySched(m, t));
  }

  lemma SchedStepIs(m: State, t: SchedStep)
    requires Coherent(m.rows) && SchedEnabled(m, t)
    ensures Steps(m, Scheduling(t), ApplySched(m, t))
  {
    hide Coherent, SchedEnabled, ApplySched;
  }

  lemma FindsAlone(s: State, p: nat, next: Status, error: Option<Failure>, at: int) returns (ts: seq<Step>, d: State)
    requires Coherent(s.rows) && s.sched.SchedProbing? && s.sched.rest != [] && p !in s.probes && Reported(next, error)
    ensures Leads(s, ts, d)
    ensures d == s.(sched := SchedProbing(s.sched.rest[1..]), probes := s.probes[p := Recording(s.sched.rest[0], next, error, at)])
  {
    hide Leads, Coherent, ApplySched, SchedEnabled;
    LoopOutcome(s, p);
    NothingLeads(s);
    SchedGoesOn(s, [], s, Dispatch(p));
    var s1 := ApplySched(s, Dispatch(p));
    ts := [] + [Scheduling(Dispatch(p))];
    OutcomeStep(s1, p, next, error, at);
    SchedGoesOn(s, ts, s1, ProbeOutcome(p, next, error, at));
    ts, d := ts + [Scheduling(ProbeOutcome(p, next, error, at))], ApplySched(s1, ProbeOutcome(p, next, error, at));
    assert s.probes[p := s1.probes[p]][p := d.probes[p]] == s.probes[p := d.probes[p]];
  }

  lemma StoresAlone(s: State, p: nat, row: Row, next: Status, error: Option<Failure>, at: int) returns (ts: seq<Step>, d: State)
    requires Coherent(s.rows) && p in s.probes && s.probes[p] == Recording(row, next, error, at) && Reported(next, error)
    requires Current(s, row) && (row.status == Healthy || row.status == Failed)
    ensures Leads(s, ts, d)
    ensures d == s.(rows := s.rows[row.id := Found(s.rows[row.id], next, error, at)], probes := s.probes - {p})
  {
    hide Leads, Coherent, ApplySched, SchedEnabled, ApplyRecord;
    RecordOutcome(s, p, row, next, error, at);
    RecordIs(s, p);
    NothingLeads(s);
    SchedGoesOn(s, [], s, Record(p));
    ts, d := [] + [Scheduling(Record(p))], ApplySched(s, Record(p));
    StoredId(s.rows, row.id);
    if row.status == next {
      var m := d;
      WriteOutcome(m, p, Found(s.rows[row.id], next, error, at));
      SchedGoesOn(s, ts, m, WriteProbe(p));
      ts, d := ts + [Scheduling(WriteProbe(p))], ApplySched(m, WriteProbe(p));
      assert s.probes[p := m.probes[p]] - {p} == s.probes - {p};
    }
  }

  /** The next row to be probed, undisturbed: what the probe finds is stored, whether it changes the status or not. */
  lemma ProbeAlone(s: State, p: nat, next: Status, error: Option<Failure>, at: int) returns (ts: seq<Step>, d: State)
    requires Coherent(s.rows) && s.sched.SchedProbing? && s.sched.rest != [] && p !in s.probes
    requires Current(s, s.sched.rest[0]) && (s.sched.rest[0].status == Healthy || s.sched.rest[0].status == Failed)
    requires (next == Healthy && error == None) || (next == Failed && error.Some?)
    ensures Leads(s, ts, d)
    ensures var id := s.sched.rest[0].id;
      d == s.(sched := SchedProbing(s.sched.rest[1..]), rows := s.rows[id := Found(s.rows[id], next, error, at)])
  {
    hide Leads, Coherent;
    var first, m := FindsAlone(s, p, next, error, at);
    var more, e := StoresAlone(m, p, s.sched.rest[0], next, error, at);
    LeadsOn(s, first, m, more, e);
    ts, d := first + more, e;
    assert s.probes[p := m.probes[p]] - {p} == s.probes;
  }

  lemma RecordIs(s: State, p: nat)
    requires Coherent(s.rows) && SchedEnabled(s, Record(p))
    ensures ApplySched(s, Record(p)) == ApplyRecord(s, p)
  {
    hide Coherent, ApplyRecord;
  }

  // ----- nobody is missed -----

  /** The tick is still listing or judging. */
  predicate InTick(sched: Scheduler) { sched.SchedListing? || sched.SchedJudging? }

  /** The id has been listed in this tick, or lies past the cursor. */
  ghost predicate Covered(sched: Scheduler, id: Id, k: Key) {
    match sched
    case SchedListing(cursor, rows) =>
      || (exists r :: r in rows && r.id == id)
      || AfterOf(cursor) == None || Less(AfterOf(cursor).value, k)
    case SchedJudging(_, rest, seen, _) => id in seen || exists r :: r in rest && r.id == id
    case _ => true
  }

  /** Listed entries are no older than init: a row in init now was in init when it was listed. */
  ghost predicate EntriesFresh(s: State) {
    forall r :: r in Listed(s.sched) ==> r.id in s.issued && (r.id in s.rows && s.rows[r.id].status == Init ==> r.status == Init)
  }

  /** No id judged in this tick is in init and overdue. */
  ghost predicate SeenInTime(s: State) {
    s.sched.SchedJudging? && !s.repoClosed ==>
      forall id :: id in s.sched.seen ==>
        id in s.issued && (id in s.rows && s.rows[id].status == Init ==> !Overdue(s, s.sched.now, s.rows[id].createdAt))
  }

  /** Steps that do not belong to the tick leave it alone, or end it. */
  ghost predicate TickStays(s: State, s': State) { s'.sched == s.sched || !InTick(s'.sched) }

  lemma StartTick(s: State, t: StartStep)
    requires StartEnabled(s, t)
    ensures TickStays(s, ApplyStart(s, t))
  {
    hide Jobs.Apply, Jobs.Enabled;
  }

  lemma OtherSched(s: State, t: SchedStep)
    requires SchedEnabled(s, t) && Coherent(s.rows) && !t.Tick? && !t.ListNextPage? && !t.Judge?
    ensures TickStays(s, ApplySched(s, t))
  {
    hide Coherent, RecordedRows, RecordedProbes, RowsAfter;
  }

  lemma TickStep(s: State, t: Step, s': State)
    requires Inv(s) && Steps(s, t, s') && t != Scheduling(Tick) && InTick(s'.sched)
    ensures InTick(s.sched)
    ensures !(t.Scheduling? && (t.sched.ListNextPage? || t.sched.Judge?)) ==> s'.sched == s.sched
  {
    hide Inv, Coherent, Later, TickStays;
    hide ApplyCreate, ApplyDelete, ApplyWork, ApplySched, ApplyStart, ApplyStop, CreateEnabled, DeleteEnabled, WorkEnabled, StartEnabled, StopEnabled;
    match t
    case Creating(x) => CreateLater(s, x);
    case Deleting(x) => DeleteLater(s, x);
    case Installing(x) => WorkFrame(s, x);
    case Scheduling(x) =>
      if !x.ListNextPage? && !x.Judge? { OtherSched(s, x); TickSame(s, s'); }
    case Opening(x) => StartTick(s, x); TickSame(s, s');
    case Stopping(x) => StopLists(s, x);
  }

  lemma TickSame(s: State, s': State)
    requires TickStays(s, s') && InTick(s'.sched)
    ensures s'.sched == s.sched
  {}

  // ----- coverage -----

  lemma ListCovers(s: State, now: int, id: Id)
    requires s.sched.SchedListing? && WellFormed(s.rows) && ValidCursor(s.sched.cursor) && id in s.rows
    requires Covered(s.sched, id, s.rows[id].key)
    ensures Covered(ListedSched(s, now), id, s.rows[id].key)
  {
    var cursor, k := s.sched.cursor, s.rows[id].key;
    PageCovers(s.rows, EVERYTHING, LIST_PAGE, cursor);
    hide ListPage, ValidCursor, Less;
    if !s.repoClosed && !(exists r :: r in s.sched.rows && r.id == id) {
      assert Selected(s.rows, EVERYTHING, AfterOf(cursor), s.rows[id]);
    }
  }

  lemma JudgeCovers(sched: Scheduler, id: Id, k: Key)
    requires sched.SchedJudging? && sched.rest != [] && Covered(sched, id, k)
    ensures Covered(JudgedSched(sched), id, k)
  {
    if r :| r in sched.rest && r.id == id {
      assert r == sched.rest[0] || r in sched.rest[1..];
    }
  }

  lemma SchedCovers(s: State, t: SchedStep, id: Id)
    requires SchedEnabled(s, t) && (t.ListNextPage? || t.Judge?) && WellFormed(s.rows) && ProbesInv(s.sched, s.probes)
    requires id in s.rows && Covered(s.sched, id, s.rows[id].key)
    ensures Covered(ApplySched(s, t).sched, id, s.rows[id].key)
  {
    assert Coherent(s.rows);
    match t
    case ListNextPage(now) => ListCovers(s, now, id); hide Coherent, Covered, ListedSched, WellFormed;
    case Judge => JudgeCovers(s.sched, id, s.rows[id].key); hide Coherent, Covered, WellFormed;
  }

  /** Which key a stored id has never changes. */
  lemma StepKeepsKey(s: State, t: Step, s': State, id: Id)
    requires Inv(s) && Steps(s, t, s') && id in s.rows && id in s'.rows
    ensures s'.rows[id].key == s.rows[id].key
  {
    assert s.rows.Keys <= s.issued;
    hide Inv, Coherent;
    hide ApplyCreate, ApplyDelete, ApplyWork, ApplySched, ApplyStart, ApplyStop, CreateEnabled, DeleteEnabled, WorkEnabled, SchedEnabled, StartEnabled, StopEnabled;
    match t
    case Creating(x) => CreateKeepsRow(s, x, id);
    case Deleting(x) => LifecycleRequests.DeleteRows(s, x);
    case Installing(x) => WorkKeepsKey(s, x, id);
    case Scheduling(x) => SchedNarrows(s, x);
    case Opening(x) => LifecycleInstalls.StartKeepsRows(s, x);
    case Stopping(x) => LifecycleInstalls.StopKeepsRows(s, x);
  }

  lemma CreateKeepsRow(s: State, t: CreateStep, id: Id)
    requires CreateEnabled(s, t) && Coherent(s.rows) && s.rows.Keys <= s.issued && id in s.rows && id in ApplyCreate(s, t).rows
    ensures ApplyCreate(s, t).rows[id] == s.rows[id]
  {
    hide Coherent, DropCall, ApplyInsert, ApplySubmit, ApplyRemove;
    match t
    case Insert(c, x, plugins, now) => LifecycleRequests.InsertOutcome(s, c, x, plugins, now); hide LifecycleRequests.Free;
    case UndoInsert(c) => LifecycleRequests.RemoveOutcome(s, c, s.calls[c].id);
    case SubmitJob(c) => SubmitTickets(s, c);
    case _ => IdleCreate(s, t); hide ApplyCreate;
  }

  lemma WorkKeepsKey(s: State, t: WorkStep, id: Id)
    requires Inv(s) && WorkEnabled(s, t) && id in s.rows && id in ApplyWork(s, t).rows
    ensures ApplyWork(s, t).rows[id].key == s.rows[id].key
  {
    hide Inv;
    match t
    case TryMark(w, retry) => LifecycleInstalls.MarkOutcome(s, w, s.pool.workers[w].job.id, retry); hide ApplyWork;
    case TryFail(w, retry) => LifecycleInstalls.FailOutcome(s, w, s.pool.workers[w].job.id, retry); hide ApplyWork;
    case TryUpdate(w, retry) => UpdateKeepsKey(s, w, retry, id);
    case _ => LifecycleInstalls.SameRows(s, t); hide ApplyWork;
  }

  lemma UpdateKeepsKey(s: State, w: nat, retry: bool, id: Id)
    requires WorkEnabled(s, TryUpdate(w, retry)) && id in s.rows && id in ApplyWork(s, TryUpdate(w, retry)).rows
    ensures ApplyWork(s, TryUpdate(w, retry)).rows[id].key == s.rows[id].key
  {
    if UpdateRow(s.rows, s.installs[w].latest).Ok? { WrittenKey(s.rows, s.installs[w].latest, id); }
    hide UpdateRow, AfterUpdate;
  }

  lemma WrittenKey(t: Table, r: Row, id: Id)
    requires UpdateRow(t, r).Ok? && id in t
    ensures id in UpdateRow(t, r).value && UpdateRow(t, r).value[id].key == t[id].key
  {}

  lemma StepCovers(s: State, t: Step, s': State, id: Id)
    requires Inv(s) && Steps(s, t, s') && t != Scheduling(Tick) && InTick(s'.sched)
    requires id in s.rows && id in s'.rows && Covered(s.sched, id, s.rows[id].key)
    ensures Covered(s'.sched, id, s'.rows[id].key)
  {
    StepKeepsKey(s, t, s', id);
    TickStep(s, t, s');
    assert WellFormed(s.rows) && ProbesInv(s.sched, s.probes) by { LifecycleSched.Parts(s); }
    hide Inv, Coherent, WellFormed, ProbesInv, Covered, ApplySched, SchedEnabled;
    if t.Scheduling? && (t.sched.ListNextPage? || t.sched.Judge?) { SchedCovers(s, t.sched, id); }
  }

  // ----- what was listed, and what was judged -----

  lemma FreshKept(s: State, s': State)
    requires EntriesFresh(s) && Later(s, s') && ListsFrom(s, s') && s.rows.Keys <= s.issued
    ensures EntriesFresh(s')
  {}

  lemma JudgeInTime(s: State)
    requires s.sched.SchedJudging? && s.sched.rest != [] && SeenInTime(s) && EntriesFresh(s) && ListedInv(s)
    ensures SeenInTime(ApplyJudge(s))
  {
    var j := s.sched;
    JudgeOutcome(s, j.now, j.rest, j.seen, j.keep);
    assert j.rest[0] in Listed(s.sched);
    hide ApplyJudge;
  }

  lemma SameInTime(s: State, s': State)
    requires SeenInTime(s) && Later(s, s') && s'.sched == s.sched && s'.installTimeout == s.installTimeout
    ensures SeenInTime(s')
  {}

  lemma ListInTime(s: State, now: int)
    requires SchedEnabled(s, ListNextPage(now)) && Coherent(s.rows)
    ensures SeenInTime(ApplySched(s, ListNextPage(now)))
  {
    hide ListPage, Coherent;
  }

  lemma CallTimeout(s: State, c: nat, call: Call, next: Option<Call>)
    ensures AddCall(s, c, call).installTimeout == s.installTimeout && Proceed(s, c, next).installTimeout == s.installTimeout
    ensures DropCall(s, c).installTimeout == s.installTimeout
  {}

  lemma RemoveTimeout(s: State, c: nat, id: Id)
    ensures ApplyRemove(s, c, id).installTimeout == s.installTimeout
  {
    hide RowsAfter;
  }

  lemma InsertTimeout(s: State, c: nat, id: Id, plugins: seq<Attached>, now: int)
    requires c in s.calls && s.calls[c].CreateReady?
    ensures ApplyInsert(s, c, id, plugins, now).installTimeout == s.installTimeout
  {
    hide InsertRow, NewRow, Write, DropCall;
    CallTimeout(s.(issued := s.issued + {id}), c, OtherCall, None);
  }

  lemma SubmitTimeout(s: State, c: nat)
    requires c in s.calls && s.calls[c].CreateInserted?
    ensures ApplySubmit(s, c).installTimeout == s.installTimeout
  {
    hide Jobs.Apply, Jobs.Accepts, DropCall;
    var id := s.calls[c].id;
    if Jobs.Accepts(s.pool) {
      assert Jobs.Enabled(s.pool, Jobs.Submit(id));
      CallTimeout(s.(ticketOf := s.ticketOf[id := s.pool.nextTicket], pool := Jobs.Apply(s.pool, Jobs.Submit(id))), c, OtherCall, None);
    }
  }

  lemma CreateTimeout(s: State, t: CreateStep)
    requires CreateEnabled(s, t) && Coherent(s.rows)
    ensures ApplyCreate(s, t).installTimeout == s.installTimeout
  {
    hide Coherent, Scanned, AddCall, DropCall, Proceed, ApplyInsert, ApplySubmit, ApplyRemove;
    match t
    case BeginCreate(c, req) => CallTimeout(s, c, CreateBegun(req), None);
    case BeginOther(c) => CallTimeout(s, c, OtherCall, None);
    case EndOther(c) => CallTimeout(s, c, OtherCall, None);
    case AbortCreate(c) => CallTimeout(s, c, OtherCall, None);
    case LockCreate(c) =>
    case ScanNextPage(c) => CallTimeout(s, c, OtherCall, Scanned(s, s.calls[c].req, s.calls[c].cursor));
    case Insert(c, id, plugins, now) => InsertTimeout(s, c, id, plugins, now);
    case SubmitJob(c) => SubmitTimeout(s, c);
    case UndoInsert(c) => RemoveTimeout(s, c, s.calls[c].id);
  }

  lemma DeleteTimeout(s: State, t: DeleteStep)
    requires DeleteEnabled(s, t)
    ensures ApplyDelete(s, t).installTimeout == s.installTimeout
  {
    hide AddCall, DropCall, Proceed, ApplyRemove, Jobs.Apply, CancelIf;
    match t
    case BeginDelete(c, x) => CallTimeout(s, c, DeleteBegun(x), None);
    case CheckOpen(c) => CallTimeout(s, c, OtherCall, if s.pool.stopped then None else Some(DeleteChecked(s.calls[c].id)));
    case GiveUpWait(c) => CallTimeout(s, c, OtherCall, None);
    case LookUp(c) =>
      CallTimeout(s, c, OtherCall, if s.repoClosed || s.calls[c].id !in s.rows then None else Some(DeleteTearing(s.calls[c].id)));
    case RemoveRow(c) => RemoveTimeout(s, c, s.calls[c].id);
    case _ =>
  }

  lemma WorkTimeout(s: State, t: WorkStep)
    requires WorkEnabled(s, t)
    ensures ApplyWork(s, t).installTimeout == s.installTimeout
  {
    hide UpdateWrite, MarkWrite, FailWrite, AfterUpdate, AfterMark, AfterFail, AfterReload, RowsAfter, ContextDone, Jobs.Apply, Jobs.Enabled;
  }

  lemma SchedTimeout(s: State, t: SchedStep)
    requires SchedEnabled(s, t) && Coherent(s.rows)
    ensures ApplySched(s, t).installTimeout == s.installTimeout
  {
    hide Coherent, ListedSched, JudgedRows, JudgedSched, RecordedRows, RecordedProbes, RowsAfter;
  }

  lemma SameTimeout(s: State, t: Step, s': State)
    requires Steps(s, t, s')
    ensures s'.installTimeout == s.installTimeout
  {
    hide Coherent;
    hide ApplyCreate, ApplyDelete, ApplyWork, ApplySched, ApplyStart, ApplyStop, CreateEnabled, DeleteEnabled, WorkEnabled, SchedEnabled, StartEnabled, StopEnabled;
    match t
    case Creating(x) => CreateTimeout(s, x);
    case Deleting(x) => DeleteTimeout(s, x);
    case Installing(x) => WorkTimeout(s, x);
    case Scheduling(x) => SchedTimeout(s, x);
    case Opening(x) => StartTimeout(s, x);
    case Stopping(x) => StopTimeout(s, x);
  }

  lemma StartTimeout(s: State, t: StartStep)
    requires StartEnabled(s, t)
    ensures ApplyStart(s, t).installTimeout == s.installTimeout
  {
    hide Jobs.Apply, Jobs.Enabled;
  }

  lemma StopTimeout(s: State, t: StopStep)
    requires StopEnabled(s, t)
    ensures ApplyStop(s, t).installTimeout == s.installTimeout
  {
    hide Jobs.Apply, Jobs.Enabled;
  }

  lemma StepInTime(s: State, t: Step, s': State)
    requires Inv(s) && Steps(s, t, s') && SeenInTime(s) && EntriesFresh(s) && ListedInv(s)
    ensures SeenInTime(s')
  {
    SameTimeout(s, t, s');
    hide Inv, Coherent, SeenInTime, EntriesFresh, ListedInv, Later;
    if t == Scheduling(Judge) {
      hide Enabled;
      JudgeIs(s, s');
      JudgeInTime(s);
    } else if t.Scheduling? && t.sched.ListNextPage? {
      hide ApplySched;
      ListInTime(s, t.sched.now);
    } else if InTick(s'.sched) && t != Scheduling(Tick) {
      TickStep(s, t, s');
      StepLater(s, t);
      hide Enabled, Apply;
      SameInTime(s, s');
    } else {
      NotJudging(s, t, s');
    }
  }

  lemma JudgeIs(s: State, s': State)
    requires Steps(s, Scheduling(Judge), s')
    ensures s.sched.SchedJudging? && s.sched.rest != [] && s' == ApplyJudge(s)
  {
    hide Coherent, ApplyJudge;
  }

  lemma NotJudging(s: State, t: Step, s': State)
    requires Steps(s, t, s') && (t == Scheduling(Tick) || !InTick(s'.sched))
    ensures SeenInTime(s')
  {
    hide Coherent;
    if t == Scheduling(Tick) { assert s'.sched == SchedListing("", []); }
  }

  lemma StepFresh(s: State, t: Step, s': State)
    requires Inv(s) && Steps(s, t, s') && EntriesFresh(s)
    ensures EntriesFresh(s')
  {
    hide EntriesFresh, Later, ListsFrom, Enabled, Apply, Coherent;
    StepLater(s, t);
    StepLists(s, t);
    assert s.rows.Keys <= s.issued by { LifecycleSched.Parts(s); }
    hide Inv;
    FreshKept(s, s');
  }

  lemma {:induction false} RunInTime(installTimeout: int, states: seq<State>, steps: seq<Step>, n: nat)
    requires IsRun(installTimeout, states, steps) && n < |states|
    ensures SeenInTime(states[n]) && EntriesFresh(states[n])
  {
    hide Inv, Steps, IsRun;
    RunLength(installTimeout, states, steps);
    if n > 0 {
      hide SeenInTime, EntriesFresh, ListedInv;
      RunInTime(installTimeout, states, steps, n - 1);
      RunListed(installTimeout, states, steps, n - 1);
      RunInv(installTimeout, states, steps, n - 1);
      RunStep(installTimeout, states, steps, n - 1);
      StepInTime(states[n - 1], steps[n - 1], states[n]);
      StepFresh(states[n - 1], steps[n - 1], states[n]);
    }
  }

  /** A step of the tick, not the one that begins it. */
  ghost predicate SameTick(steps: seq<Step>, i: nat, j: nat) {
    i <= j <= |steps| && forall k :: i <= k < j ==> steps[k] != Scheduling(Tick)
  }

  /** What is listed or past the cursor stays so, as long as the row is stored. */
  lemma {:induction false} RunCovers(installTimeout: int, states: seq<State>, steps: seq<Step>, i: nat, j: nat, id: Id)
    requires IsRun(installTimeout, states, steps) && |states| == |steps| + 1 && SameTick(steps, i, j) && InTick(states[j].sched)
    requires id in states[i].rows && id in states[j].rows && Covered(states[i].sched, id, states[i].rows[id].key)
    ensures Covered(states[j].sched, id, states[j].rows[id].key)
    decreases j
  {
    hide Inv, Steps, IsRun, Covered, Later;
    if i < j {
      var s, t, s' := states[j - 1], steps[j - 1], states[j];
      RunInv(installTimeout, states, steps, i);
      RunInv(installTimeout, states, steps, j - 1);
      RunStep(installTimeout, states, steps, j - 1);
      TickStep(s, t, s');
      StaysStored(installTimeout, states, steps, i, j - 1, j, id);
      hide InTick;
      RunCovers(installTimeout, states, steps, i, j - 1, id);
      StepCovers(s, t, s', id);
    }
  }

  /** A row stored before and after was stored in between. */
  lemma StaysStored(installTimeout: int, states: seq<State>, steps: seq<Step>, i: nat, k: nat, j: nat, id: Id)
    requires IsRun(installTimeout, states, steps) && i <= k <= j < |states| && id in states[i].rows && id in states[j].rows
    ensures id in states[k].rows
  {
    hide Steps, IsRun;
    RunInv(installTimeout, states, steps, i);
    assert id in states[i].issued by { LifecycleSched.Parts(states[i]); }
    hide Inv;
    RunLater(installTimeout, states, steps, i, k);
    RunLater(installTimeout, states, steps, k, j);
  }

  /**
   Nobody overdue is missed: when the judging of a tick is over and the repository is open, no row that was stored
   when the tick began is still in init and, by the tick's own clock, older than the timeout.
   */
  lemma WatchdogMissesNobody(installTimeout: int, states: seq<State>, steps: seq<Step>, i: nat, j: nat, id: Id)
    requires IsRun(installTimeout, states, steps) && i < j < |steps| == |states| - 1
    requires steps[i] == Scheduling(Tick) && SameTick(steps, i + 1, j) && steps[j] == Scheduling(StartProbes)
    requires id in states[i + 1].rows && id in states[j].rows && !states[j].repoClosed
    ensures states[j].sched.SchedJudging?
    ensures states[j].rows[id].status == Init && installTimeout > 0 ==>
      states[j].sched.now - states[j].rows[id].createdAt <= installTimeout
  {
    hide Steps, IsRun;
    RunStep(installTimeout, states, steps, i);
    RunStep(installTimeout, states, steps, j);
    TickBegins(states[i], states[i + 1], id);
    TickEnds(states[j], states[j + 1]);
    RunCovers(installTimeout, states, steps, i + 1, j, id);
    RunInTime(installTimeout, states, steps, j);
    RunTimeout(installTimeout, states, steps, j);
    hide EntriesFresh;
  }

  lemma TickBegins(s: State, s': State, id: Id)
    requires Steps(s, Scheduling(Tick), s') && id in s'.rows
    ensures Covered(s'.sched, id, s'.rows[id].key)
  {
    hide Coherent;
  }

  lemma TickEnds(s: State, s': State)
    requires Steps(s, Scheduling(StartProbes), s')
    ensures s.sched.SchedJudging? && s.sched.rest == [] && s'.sched == SchedProbing(s.sched.keep)
  {
    hide Coherent;
  }

  lemma {:induction false} RunTimeout(installTimeout: int, states: seq<State>, steps: seq<Step>, n: nat)
    requires IsRun(installTimeout, states, steps) && n < |states|
    ensures states[n].installTimeout == installTimeout
  {
    hide Steps, IsRun;
    RunLength(installTimeout, states, steps);
    if n > 0 {
      RunTimeout(installTimeout, states, steps, n - 1);
      RunStep(installTimeout, states, steps, n - 1);
      SameTimeout(states[n - 1], steps[n - 1], states[n]);
    }
  }

  // ----- every settled row is probed -----

  /** Entries of the id show a settled row, and once it is judged it is kept for probing. */
  ghost predicate KeptFor(sched: Scheduler, id: Id) {
    && (forall r :: r in Listed(sched) && r.id == id ==> r.status == Healthy || r.status == Failed)
    && (sched.SchedJudging? && id in sched.seen ==> exists r :: r in sched.keep && r.id == id)
  }

  lemma ListKeeps(s: State, now: int, id: Id)
    requires s.sched.SchedListing? && WellFormed(s.rows) && ValidCursor(s.sched.cursor) && id in s.rows
    requires s.rows[id].status == Healthy || s.rows[id].status == Failed
    requires KeptFor(s.sched, id)
    ensures KeptFor(ListedSched(s, now), id)
  {
    NextPageLists(s, now);
    hide ListPage, WellFormed, ValidCursor;
    assert ListsFrom(s, s.(sched := ListedSched(s, now)));
    hide ListsFrom;
    ListsMeans(s, s.(sched := ListedSched(s, now)), id);
  }

  lemma ListsMeans(s: State, s': State, id: Id)
    requires ListsFrom(s, s')
    ensures forall r :: r in Listed(s'.sched) && r.id == id ==> r in Listed(s.sched) || (id in s.rows && s.rows[id] == r)
  {}

  lemma JudgeKeeps(sched: Scheduler, id: Id)
    requires sched.SchedJudging? && sched.rest != [] && KeptFor(sched, id)
    ensures KeptFor(JudgedSched(sched), id)
  {
    assert sched.rest[0] in Listed(sched);
    var next := JudgedSched(sched);
    if r :| r in sched.keep && r.id == id { assert r in next.keep; }
    if sched.rest[0].id == id && id !in sched.seen { assert next.keep[|sched.keep|] == sched.rest[0]; }
  }

  lemma StepKeptFor(s: State, t: Step, s': State, id: Id)
    requires Inv(s) && Steps(s, t, s') && t != Scheduling(Tick) && InTick(s'.sched)
    requires id in s.rows && s.rows[id].status != Init && KeptFor(s.sched, id)
    ensures KeptFor(s'.sched, id)
  {
    TickStep(s, t, s');
    assert WellFormed(s.rows) && ProbesInv(s.sched, s.probes) by { LifecycleSched.Parts(s); }
    assert StatusAgrees(s.rows[id]) by { LifecycleSched.Parts(s); }
    hide Inv, Coherent, WellFormed, KeptFor, ProbesInv, ApplySched, SchedEnabled;
    if t.Scheduling? && (t.sched.ListNextPage? || t.sched.Judge?) { SchedKeptFor(s, t.sched, id); }
  }

  lemma SchedKeptFor(s: State, t: SchedStep, id: Id)
    requires SchedEnabled(s, t) && (t.ListNextPage? || t.Judge?) && WellFormed(s.rows) && ProbesInv(s.sched, s.probes)
    requires id in s.rows && s.rows[id].status != Init && StatusAgrees(s.rows[id]) && KeptFor(s.sched, id)
    ensures KeptFor(ApplySched(s, t).sched, id)
  {
    assert Coherent(s.rows);
    match t
    case ListNextPage(now) => ListKeeps(s, now, id); hide Coherent, KeptFor, ListedSched, WellFormed;
    case Judge => JudgeKeeps(s.sched, id); hide Coherent, KeptFor, WellFormed;
  }

  lemma {:induction false} RunKeptFor(installTimeout: int, states: seq<State>, steps: seq<Step>, i: nat, j: nat, id: Id)
    requires IsRun(installTimeout, states, steps) && |states| == |steps| + 1 && SameTick(steps, i, j) && InTick(states[j].sched)
    requires id in states[i].rows && states[i].rows[id].status != Init && id in states[j].rows && KeptFor(states[i].sched, id)
    ensures KeptFor(states[j].sched, id)
    decreases j
  {
    hide Inv, Steps, IsRun, KeptFor, Later;
    if i < j {
      var s, t, s' := states[j - 1], steps[j - 1], states[j];
      RunInv(installTimeout, states, steps, i);
      RunInv(installTimeout, states, steps, j - 1);
      RunStep(installTimeout, states, steps, j - 1);
      TickStep(s, t, s');
      StaysStored(installTimeout, states, steps, i, j - 1, j, id);
      assert id in states[i].issued by { LifecycleSched.Parts(states[i]); }
      NeverBackToInit(installTimeout, states, steps, i, j - 1, id);
      hide InTick;
      RunKeptFor(installTimeout, states, steps, i, j - 1, id);
      StepKeptFor(s, t, s', id);
    }
  }

  /** Everyone settled is probed: a row stored and out of init when the tick began, and still stored, is among those the tick goes on to probe. */
  lemma EveryoneIsProbed(installTimeout: int, states: seq<State>, steps: seq<Step>, i: nat, j: nat, id: Id)
    requires IsRun(installTimeout, states, steps) && i < j < |steps| == |states| - 1
    requires steps[i] == Scheduling(Tick) && SameTick(steps, i + 1, j) && steps[j] == Scheduling(StartProbes)
    requires id in states[i + 1].rows && states[i + 1].rows[id].status != Init && id in states[j].rows
    ensures states[j + 1].sched.SchedProbing? && exists r :: r in states[j + 1].sched.rest && r.id == id
  {
    hide Steps, IsRun;
    RunStep(installTimeout, states, steps, i);
    RunStep(installTimeout, states, steps, j);
    TickBegins(states[i], states[i + 1], id);
    TickKeeps(states[i], states[i + 1], id);
    TickEnds(states[j], states[j + 1]);
    RunCovers(installTimeout, states, steps, i + 1, j, id);
    RunKeptFor(installTimeout, states, steps, i + 1, j, id);
  }

  lemma TickKeeps(s: State, s': State, id: Id)
    requires Steps(s, Scheduling(Tick), s')
    ensures KeptFor(s'.sched, id)
  {
    hide Coherent;
  }
}
