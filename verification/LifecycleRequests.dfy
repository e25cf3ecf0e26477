/** What the API calls do to the table, the queue and themselves: the exact outcome of each step, and calls from end to end. */
module LifecycleRequests {
  import opened Common
  import opened Keys
  import opened Workspaces
  import opened Paging
  import opened Lifecycle
  import opened LifecycleInv
  import opened LifecycleTheorems
  import opened LifecycleHistory
  import opened LifecycleShutdown
  import Paths
  import Jobs = InstallPool

  // ----- a row enters the table -----

  ghost predicate Free(t: Table, k: Key) { forall a :: a in t ==> t[a].key != k }

  /** A call that returns is gone, and everything else is as it was. */
  ghost predicate Returns(s: State, d: State, c: nat) {
    && d == s.(calls := s.calls - {c}, apiCount := d.apiCount, createLock := d.createLock)
    && d.createLock == (if s.createLock == Some(c) then None else s.createLock)
    && (s.apiCount > 0 ==> d.apiCount == s.apiCount - 1)
  }

  lemma Dropped(s: State, c: nat)
    ensures Returns(s, DropCall(s, c), c)
  {}

  lemma TakenMeans(t: Table, k: Key)
    ensures AliasTaken(t, k) <==> !Free(t, k)
  {}

  /** The insert of a create, field by field; a refusal ends the create and uses up the id. */
  lemma InsertOutcome(s: State, c: nat, id: Id, plugins: seq<Attached>, now: int)
    requires c in s.calls && s.calls[c].CreateReady? && id !in s.rows
    ensures Enabled(s, Creating(Insert(c, id, plugins, now))) <==> id !in s.issued
    ensures var req, d := s.calls[c].req, ApplyInsert(s, c, id, plugins, now);
      if !s.repoClosed && Free(s.rows, req.key) then
        d == s.(issued := s.issued + {id}, calls := s.calls[c := CreateInserted(id)],
          rows := s.rows[id := Row(id, req.key, req.agentType, req.infraType, req.rawDir, plugins, Init, None, req.labels, now, 0)])
      else Returns(s.(issued := s.issued + {id}), d, c)
  {
    var key := s.calls[c].req.key;
    TakenMeans(s.rows, key);
    hide AliasTaken, Free, DropCall, Returns;
    Dropped(s.(issued := s.issued + {id}), c);
  }

  // ----- the other steps of a create -----

  lemma BeginOutcome(s: State, c: nat, req: Request)
    ensures Enabled(s, Creating(BeginCreate(c, req))) <==> s.stop == NoStop && c !in s.calls
    ensures AddCall(s, c, CreateBegun(req)) == s.(calls := s.calls[c := CreateBegun(req)], apiCount := s.apiCount + 1)
  {}

  /** The directory a request claims: only a localdir workspace with a directory claims one. */
  lemma LockOutcome(s: State, c: nat)
    requires c in s.calls && s.calls[c].CreateBegun?
    ensures var ns := s.calls[c].req.key.ns;
      Enabled(s, Creating(LockCreate(c))) <==>
        && s.createLock == None && 1 <= |ns| <= 32
        && forall i :: 0 <= i < |ns| ==> 97 <= ns[i] <= 122 || 48 <= ns[i] <= 57 || ns[i] == 45
    ensures var req := s.calls[c].req;
      ApplyLock(s, c) == s.(createLock := Some(c), calls := s.calls[c :=
        if req.infraType == "localdir" && req.rawDir.Some? && req.rawDir.value != "" then CreateScanning(req, "") else CreateReady(req)])
  {}

  /** A create that holds no row may end at any point, and a call that touches no row may come and go. */
  lemma OtherOutcome(s: State, c: nat)
    requires Coherent(s.rows)
    ensures Enabled(s, Creating(AbortCreate(c))) <==> c in s.calls && (s.calls[c].CreateBegun? || s.calls[c].CreateScanning? || s.calls[c].CreateReady?)
    ensures Enabled(s, Creating(AbortCreate(c))) ==> Returns(s, ApplyCreate(s, AbortCreate(c)), c)
    ensures Enabled(s, Creating(BeginOther(c))) <==> s.stop == NoStop && c !in s.calls
    ensures Enabled(s, Creating(BeginOther(c))) ==>
      ApplyCreate(s, BeginOther(c)) == s.(calls := s.calls[c := OtherCall], apiCount := s.apiCount + 1)
    ensures Enabled(s, Creating(EndOther(c))) <==> c in s.calls && s.calls[c] == OtherCall
    ensures Enabled(s, Creating(EndOther(c))) ==> Returns(s, ApplyCreate(s, EndOther(c)), c)
  {
    hide Coherent, DropCall, Returns;
    Dropped(s, c);
  }

  lemma ProceedOutcome(s: State, c: nat, next: Option<Call>)
    ensures next.Some? ==> Proceed(s, c, next) == s.(calls := s.calls[c := next.value])
    ensures next.None? ==> Returns(s, Proceed(s, c, next), c)
  {
    Dropped(s, c);
  }

  /** Accepted exactly while the controller is started and not stopped; a refused submit leads to taking the row back. */
  lemma SubmitOutcome(s: State, c: nat)
    requires c in s.calls && s.calls[c].CreateInserted?
    ensures Enabled(s, Creating(SubmitJob(c)))
    ensures var id, d, p := s.calls[c].id, ApplySubmit(s, c), s.pool;
      if p.started && !p.stopped then
        Returns(s.(ticketOf := s.ticketOf[id := p.nextTicket], pool := p.(queue := p.queue + [Jobs.Job(id, p.nextTicket)], nextTicket := p.nextTicket + 1)), d, c)
      else d == s.(calls := s.calls[c := CreateRejected(id)])
  {
    var id, p := s.calls[c].id, s.pool;
    hide DropCall, Returns;
    Dropped(s.(ticketOf := s.ticketOf[id := p.nextTicket], pool := p.(queue := p.queue + [Jobs.Job(id, p.nextTicket)], nextTicket := p.nextTicket + 1)), c);
  }

  lemma RemoveOutcome(s: State, c: nat, id: Id)
    ensures var d := ApplyRemove(s, c, id);
      Returns(if s.repoClosed then s else s.(rows := s.rows - {id}), d, c)
  {
    hide DropCall, Returns;
    var rows := RowsAfter(s, DeleteRow(s.rows, id));
    assert rows == if s.repoClosed then s.rows else s.rows - {id};
    Dropped(s.(rows := rows), c);
    assert s.(rows := s.rows) == s;
  }

  // ----- a create from end to end -----

  lemma GoesOn(s: State, ts: seq<Step>, m: State, t: CreateStep)
    requires Leads(s, ts, m) && Coherent(m.rows) && CreateEnabled(m, t)
    ensures Leads(s, ts + [Creating(t)], ApplyCreate(m, t))
  {
    hide Leads, Coherent, CreateEnabled, ApplyCreate;
    MakesStep(m, t);
    hide Steps;
    LeadsThen(s, ts, m, Creating(t), ApplyCreate(m, t));
  }

  lemma MakesStep(m: State, t: CreateStep)
    requires Coherent(m.rows) && CreateEnabled(m, t)
    ensures Steps(m, Creating(t), ApplyCreate(m, t))
  {
    hide Coherent, CreateEnabled, ApplyCreate;
  }

  /** Some stored row past the cursor has the directory the request wants. */
  ghost predicate DirAhead(t: Table, want: Option<string>, cursor: string) {
    exists r :: Selected(t, ScanFilter, AfterOf(cursor), r) && DirOf(r) == want
  }

  /** One page of the scan: the directory ends the create, the last page lets it go on. */
  lemma PageOutcome(s: State, c: nat)
    requires WellFormed(s.rows) && c in s.calls && s.calls[c].CreateScanning? && ValidCursor(s.calls[c].cursor) && !s.repoClosed
    ensures Enabled(s, Creating(ScanNextPage(c)))
    ensures var req, cursor, d := s.calls[c].req, s.calls[c].cursor, ApplyCreate(s, ScanNextPage(c));
      var page := ListPage(s.rows, ScanFilter, 200, cursor).value;
      if exists r :: r in page.rows && DirOf(r) == WantDir(req) then Returns(s, d, c)
      else if page.next == "" then d == s.(calls := s.calls[c := CreateReady(req)])
      else d == s.(calls := s.calls[c := CreateScanning(req, page.next)])
  {
    hide ListPage, ValidCursor, Returns, Proceed, WantDir;
    assert Coherent(s.rows);
    hide WellFormed, Coherent;
    PageIsThere(s.rows, s.calls[c].cursor);
    ProceedOutcome(s, c, Scanned(s, s.calls[c].req, s.calls[c].cursor));
  }

  lemma PageIsThere(t: Table, cursor: string)
    requires Coherent(t) && ValidCursor(cursor)
    ensures ListPage(t, ScanFilter, 200, cursor).Ok?
  {
    hide Listing, CutPage;
  }

  /** What is ahead of a page without the directory is ahead of the next cursor. */
  lemma AheadMoves(t: Table, want: Option<string>, cursor: string)
    requires WellFormed(t) && ValidCursor(cursor)
    ensures var page := ListPage(t, ScanFilter, 200, cursor).value;
      && ((exists r :: r in page.rows && DirOf(r) == want) ==> DirAhead(t, want, cursor))
      && (!(exists r :: r in page.rows && DirOf(r) == want) && page.next == "" ==> !DirAhead(t, want, cursor))
      && (page.next != "" ==>
            && ValidCursor(page.next)
            && |Listing(t, ScanFilter, AfterOf(page.next))| < |Listing(t, ScanFilter, AfterOf(cursor))|
            && (!(exists r :: r in page.rows && DirOf(r) == want) ==> (DirAhead(t, want, page.next) <==> DirAhead(t, want, cursor))))
  {
    PageCovers(t, ScanFilter, 200, cursor);
    PageShrinks(t, ScanFilter, 200, cursor);
    var page := ListPage(t, ScanFilter, 200, cursor).value;
    if page.next != "" { NextIsLater(t, cursor, page.rows, page.next); }
    hide ListPage, ValidCursor, Listing, WellFormed, DirOf, Selected, AfterOf, EffectiveLimit;
  }

  /** What is past the next cursor is past this one. */
  lemma NextIsLater(t: Table, cursor: string, rows: seq<Row>, next: string)
    requires WellFormed(t) && ValidCursor(cursor) && ValidCursor(next) && next != "" && rows != []
    requires Listing(t, ScanFilter, AfterOf(cursor)) == rows + Listing(t, ScanFilter, AfterOf(next))
    ensures forall r :: Selected(t, ScanFilter, AfterOf(next), r) ==> Selected(t, ScanFilter, AfterOf(cursor), r)
  {
    var all, rest := Listing(t, ScanFilter, AfterOf(cursor)), Listing(t, ScanFilter, AfterOf(next));
    hide ValidCursor, AfterOf, Less, Matches, Listing;
    forall r | Selected(t, ScanFilter, AfterOf(next), r) ensures Selected(t, ScanFilter, AfterOf(cursor), r) {
      assert r in rest && r in all;
      var i :| 0 <= i < |all| && all[i] == r;
    }
  }

  ghost predicate AllSteps(ts: seq<Step>, c: nat) {
    forall i :: 0 <= i < |ts| ==> (ts[i].Creating? && ts[i].create.c == c) || (ts[i].Deleting? && ts[i].delete.c == c)
  }

  /** The scan, undisturbed, ends the create if the directory is ahead, and otherwise lets it go on. */
  lemma {:induction false} ScanAlone(s: State, c: nat) returns (ts: seq<Step>, d: State)
    requires WellFormed(s.rows) && c in s.calls && s.calls[c].CreateScanning? && ValidCursor(s.calls[c].cursor) && !s.repoClosed
    ensures Leads(s, ts, d) && AllSteps(ts, c)
    ensures if DirAhead(s.rows, WantDir(s.calls[c].req), s.calls[c].cursor) then Returns(s, d, c)
            else d == s.(calls := s.calls[c := CreateReady(s.calls[c].req)])
    decreases |Listing(s.rows, ScanFilter, AfterOf(s.calls[c].cursor))|
  {
    hide WellFormed, ListPage, ValidCursor, Listing, DirOf, DirAhead, Leads, Returns, AfterOf, Coherent;
    var want, cursor := WantDir(s.calls[c].req), s.calls[c].cursor;
    hide WantDir;
    assert Coherent(s.rows) by { IsCoherent(s.rows); }
    PageOutcome(s, c);
    hide ApplyCreate, CreateEnabled;
    AheadMoves(s.rows, want, cursor);
    PageIsThere(s.rows, cursor);
    var page := ListPage(s.rows, ScanFilter, 200, cursor).value;
    NothingLeads(s);
    GoesOn(s, [], s, ScanNextPage(c));
    var first := [] + [Creating(ScanNextPage(c))];
    var m := ApplyCreate(s, ScanNextPage(c));
    ts, d := first, m;
    if !(exists r :: r in page.rows && DirOf(r) == want) && page.next != "" {
      var more, e := ScanAlone(m, c);
      LeadsOn(s, first, m, more, e);
      ts, d := first + more, e;
      MovedReturns(s, m, e, c, CreateReady(s.calls[c].req));
    }
  }

  lemma IsCoherent(t: Table)
    requires WellFormed(t)
    ensures Coherent(t)
  {}

  /** Only the slot of the call had changed. */
  lemma MovedReturns(s: State, m: State, d: State, c: nat, call: Call)
    requires c in s.calls && c in m.calls && m == s.(calls := s.calls[c := m.calls[c]])
    ensures Returns(m, d, c) ==> Returns(s, d, c)
    ensures d == m.(calls := m.calls[c := call]) ==> d == s.(calls := s.calls[c := call])
  {
    assert s.calls[c := m.calls[c]] - {c} == s.calls - {c};
    assert s.calls[c := m.calls[c]][c := call] == s.calls[c := call];
  }

  /** Some stored localdir row has the directory the request asks for. */
  ghost predicate DirTakenBy(t: Table, req: Request) {
    && req.infraType == "localdir" && req.rawDir.Some? && req.rawDir.value != ""
    && exists id :: id in t && t[id].infraType == "localdir" && t[id].rawDir.Some? && t[id].rawDir.value != ""
                 && Paths.Clean(t[id].rawDir.value) == Paths.Clean(req.rawDir.value)
  }

  lemma DirIsAhead(t: Table, req: Request)
    requires Coherent(t) && WantDir(req).Some?
    ensures DirAhead(t, WantDir(req), "") <==> DirTakenBy(t, req)
  {
    hide Paths.Clean;
    if DirTakenBy(t, req) {
      var id :| id in t && t[id].infraType == "localdir" && t[id].rawDir.Some? && t[id].rawDir.value != "" && Paths.Clean(t[id].rawDir.value) == Paths.Clean(req.rawDir.value);
      assert DirOf(t[id]) == WantDir(req) && Selected(t, ScanFilter, AfterOf(""), t[id]);
    }
    if r :| Selected(t, ScanFilter, AfterOf(""), r) && DirOf(r) == WantDir(req) { assert t[r.id] == r; }
  }

  /** The create up to the point where it may insert; it holds the create mutex, or it has returned. */
  lemma Checked(s: State, c: nat, req: Request) returns (ts: seq<Step>, d: State)
    requires WellFormed(s.rows) && c in s.calls && s.calls[c] == CreateBegun(req) && !s.repoClosed
    requires CreateEnabled(s, LockCreate(c))
    ensures Leads(s, ts, d) && AllSteps(ts, c)
    ensures if DirTakenBy(s.rows, req) then Returns(s.(createLock := Some(c)), d, c)
            else d == s.(createLock := Some(c), calls := s.calls[c := CreateReady(req)])
  {
    hide Leads, Returns, Coherent, Paths.Clean, DirAhead, ApplyLock;
    assert Coherent(s.rows) by { IsCoherent(s.rows); }
    LockOutcome(s, c);
    hide WellFormed;
    hide CreateEnabled;
    NothingLeads(s);
    GoesOn(s, [], s, LockCreate(c));
    ts, d := [] + [Creating(LockCreate(c))], ApplyLock(s, c);
    if d.calls[c].CreateScanning? {
      EmptyIsValid();
      DirIsAhead(s.rows, req);
      var first, m := ts, d;
      var more, e := ScanAlone(m, c);
      LeadsOn(s, first, m, more, e);
      ts, d := first + more, e;
      MovedReturns(s.(createLock := Some(c)), m, e, c, CreateReady(req));
    }
  }

  lemma EmptyIsValid()
    ensures ValidCursor("") && AfterOf("") == None
  {}

  ghost predicate NamespaceText(ns: Text) {
    1 <= |ns| <= 32 && forall i :: 0 <= i < |ns| ==> 97 <= ns[i] <= 122 || 48 <= ns[i] <= 57 || ns[i] == 45
  }

  /** A create may begin now and hold the create mutex. */
  ghost predicate MayCreate(s: State, c: nat, req: Request) {
    s.stop == NoStop && c !in s.calls && s.createLock == None && !s.repoClosed && NamespaceText(req.key.ns)
  }

  /** Begun and checked. */
  lemma BegunAndChecked(s: State, c: nat, req: Request) returns (ts: seq<Step>, d: State)
    requires WellFormed(s.rows) && MayCreate(s, c, req)
    ensures Leads(s, ts, d) && AllSteps(ts, c)
    ensures if DirTakenBy(s.rows, req) then d == s
            else d == s.(createLock := Some(c), calls := s.calls[c := CreateReady(req)], apiCount := s.apiCount + 1)
  {
    hide Leads, Coherent, DirTakenBy;
    assert Coherent(s.rows) by { IsCoherent(s.rows); }
    hide WellFormed;
    BeginOutcome(s, c, req);
    NothingLeads(s);
    GoesOn(s, [], s, BeginCreate(c, req));
    hide CreateEnabled, ApplyCreate;
    var first, m := [] + [Creating(BeginCreate(c, req))], AddCall(s, c, CreateBegun(req));
    assert ApplyCreate(s, BeginCreate(c, req)) == m by { BeginsAs(s, c, req); }
    LockOutcome(m, c);
    var more, e := Checked(m, c, req);
    LeadsOn(s, first, m, more, e);
    ts, d := first + more, e;
    assert s.calls[c := CreateBegun(req)] - {c} == s.calls;
    assert s.calls[c := CreateBegun(req)][c := CreateReady(req)] == s.calls[c := CreateReady(req)];
  }

  lemma BeginsAs(s: State, c: nat, req: Request)
    requires CreateEnabled(s, BeginCreate(c, req)) && Coherent(s.rows)
    ensures ApplyCreate(s, BeginCreate(c, req)) == AddCall(s, c, CreateBegun(req))
  {}

  /** The state after a create that succeeded: a new row in init, and its job at the end of the queue. */
  function Created(s: State, id: Id, req: Request, plugins: seq<Attached>, now: int): State {
    s.(issued := s.issued + {id},
       rows := s.rows[id := Row(id, req.key, req.agentType, req.infraType, req.rawDir, plugins, Init, None, req.labels, now, 0)],
       ticketOf := s.ticketOf[id := s.pool.nextTicket],
       pool := s.pool.(queue := s.pool.queue + [Jobs.Job(id, s.pool.nextTicket)], nextTicket := s.pool.nextTicket + 1))
  }

  /** Inserted and submitted. */
  lemma Stored(s: State, c: nat, req: Request, id: Id, plugins: seq<Attached>, now: int) returns (ts: seq<Step>, d: State)
    requires Coherent(s.rows) && s.rows.Keys <= s.issued && id !in s.issued && !s.repoClosed && s.apiCount > 0
    requires c in s.calls && s.calls[c] == CreateReady(req) && s.pool.started && !s.pool.stopped
    ensures Leads(s, ts, d) && AllSteps(ts, c)
    ensures Returns(if Free(s.rows, req.key) then Created(s, id, req, plugins, now) else s.(issued := s.issued + {id}), d, c)
  {
    hide Leads, Coherent, Free;
    InsertOutcome(s, c, id, plugins, now);
    NothingLeads(s);
    GoesOn(s, [], s, Insert(c, id, plugins, now));
    ts, d := [] + [Creating(Insert(c, id, plugins, now))], ApplyInsert(s, c, id, plugins, now);
    if Free(s.rows, req.key) {
      var m := d;
      FreshCoherent(s.rows, id, m.rows[id]);
      hide ApplyInsert, ApplySubmit, Returns;
      SubmitOutcome(m, c);
      GoesOn(s, ts, m, SubmitJob(c));
      hide ApplyCreate, CreateEnabled;
      DroppedSlot(Created(s, id, req, plugins, now), c, CreateInserted(id), ApplySubmit(m, c));
      ts, d := ts + [Creating(SubmitJob(c))], ApplySubmit(m, c);
    }
  }

  /** What the slot held before the call returned makes no difference. */
  lemma DroppedSlot(s: State, c: nat, call: Call, d: State)
    requires Returns(s.(calls := s.calls[c := call]), d, c)
    ensures Returns(s, d, c)
  {
    assert s.calls[c := call] - {c} == s.calls - {c};
  }

  lemma FreshCoherent(t: Table, id: Id, row: Row)
    requires Coherent(t) && id !in t && row.id == id && Free(t, row.key)
    ensures Coherent(t[id := row])
  {}

  /**
   A create with a valid namespace, undisturbed, in full: a taken directory or key changes nothing but the ids used
   up, and otherwise the row is stored in init and its job is last in the queue.
   */
  lemma CreateAlone(s: State, c: nat, req: Request, id: Id, plugins: seq<Attached>, now: int) returns (ts: seq<Step>, d: State)
    requires WellFormed(s.rows) && s.rows.Keys <= s.issued && id !in s.issued
    requires MayCreate(s, c, req) && s.pool.started && !s.pool.stopped
    ensures Leads(s, ts, d) && AllSteps(ts, c)
    ensures d == if DirTakenBy(s.rows, req) then s
                 else if !Free(s.rows, req.key) then s.(issued := s.issued + {id})
                 else Created(s, id, req, plugins, now)
  {
    hide Leads, WellFormed, DirTakenBy, Free, Coherent;
    ts, d := BegunAndChecked(s, c, req);
    if !DirTakenBy(s.rows, req) {
      assert Coherent(s.rows) by { IsCoherent(s.rows); }
      var first, m := ts, d;
      var more, e := Stored(m, c, req, id, plugins, now);
      LeadsOn(s, first, m, more, e);
      ts, d := first + more, e;
      assert Created(m, id, req, plugins, now)
        == Created(s, id, req, plugins, now).(createLock := Some(c), calls := s.calls[c := CreateReady(req)], apiCount := s.apiCount + 1);
      var s' := if Free(s.rows, req.key) then Created(s, id, req, plugins, now) else s.(issued := s.issued + {id});
      hide Created;
      BackAgain(s', c, CreateReady(req), d);
    }
  }

  /** A call that was begun and has returned leaves no trace of itself. */
  lemma BackAgain(s: State, c: nat, call: Call, d: State)
    requires c !in s.calls && s.createLock == None
    requires Returns(s.(createLock := Some(c), calls := s.calls[c := call], apiCount := s.apiCount + 1), d, c)
    ensures d == s
  {
    assert s.calls[c := call] - {c} == s.calls;
  }

  // ----- rows enter the table in init -----

  lemma CreateAdds(s: State, t: CreateStep, id: Id)
    requires CreateEnabled(s, t) && Coherent(s.rows) && s.rows.Keys <= s.issued && id !in s.rows && id in ApplyCreate(s, t).rows
    ensures t.Insert? && t.id == id && t.c in s.calls && s.calls[t.c].CreateReady?
    ensures var req := s.calls[t.c].req;
      ApplyCreate(s, t).rows[id] == Row(id, req.key, req.agentType, req.infraType, req.rawDir, t.plugins, Init, None, req.labels, t.now, 0)
  {
    hide Coherent, ApplyInsert, ApplySubmit, ApplyRemove, DropCall;
    match t
    case Insert(c, x, plugins, now) => InsertOutcome(s, c, x, plugins, now); hide Free;
    case SubmitJob(c) => SubmitTickets(s, c);
    case UndoInsert(c) => RemoveOutcome(s, c, s.calls[c].id); hide ApplyCreate; UndoneRows(s, c);
    case _ => IdleCreate(s, t); hide ApplyCreate;
  }

  lemma UndoneRows(s: State, c: nat)
    requires CreateEnabled(s, UndoInsert(c)) && Coherent(s.rows)
    ensures ApplyCreate(s, UndoInsert(c)).rows.Keys <= s.rows.Keys
  {
    hide Coherent;
  }

  lemma DeleteRows(s: State, t: DeleteStep)
    requires DeleteEnabled(s, t)
    ensures ApplyDelete(s, t).rows == if t.RemoveRow? && !s.repoClosed then s.rows - {s.calls[t.c].id} else s.rows
  {
    hide AddCall, Proceed, DropCall, Jobs.Apply, CancelIf, ApplyRemove;
    match t
    case BeginDelete(c, x) => SameTickets(s, c, DeleteBegun(x), None);
    case CheckOpen(c) => SameTickets(s, c, OtherCall, if s.pool.stopped then None else Some(DeleteChecked(s.calls[c].id)));
    case LookUp(c) => SameTickets(s, c, OtherCall, if s.repoClosed || s.calls[c].id !in s.rows then None else Some(DeleteTearing(s.calls[c].id)));
    case GiveUpWait(c) => SameTickets(s, c, OtherCall, None);
    case RemoveRow(c) => RemoveOutcome(s, c, s.calls[c].id);
    case _ =>
  }

  lemma StepAdds(s: State, t: Step, s': State, id: Id)
    requires Inv(s) && Steps(s, t, s') && id !in s.rows && id in s'.rows
    ensures t.Creating? && t.create.Insert? && t.create.id == id && t.create.c in s.calls && s.calls[t.create.c].CreateReady?
    ensures var req := s.calls[t.create.c].req;
      s'.rows[id] == Row(id, req.key, req.agentType, req.infraType, req.rawDir, t.create.plugins, Init, None, req.labels, t.create.now, 0)
  {
    assert s.rows.Keys <= s.issued;
    hide Inv, Coherent;
    hide ApplyCreate, ApplyDelete, ApplyWork, ApplySched, ApplyStart, ApplyStop, CreateEnabled, DeleteEnabled, WorkEnabled, SchedEnabled, StartEnabled, StopEnabled;
    match t
    case Creating(x) => CreateAdds(s, x, id);
    case Deleting(x) => DeleteRows(s, x);
    case Installing(x) => WorkBehind(s, x);
    case Scheduling(x) => SchedBehind(s, x);
    case Opening(x) => StartBehind(s, x);
    case Stopping(x) => StopBehind(s, x);
  }

  /** An id enters the table only by the insert of a create, as the row that create asked for, in init. */
  lemma RowsEnterInInit(installTimeout: int, states: seq<State>, steps: seq<Step>, n: nat, id: Id)
    requires IsRun(installTimeout, states, steps) && n < |steps| == |states| - 1
    requires id !in states[n].rows && id in states[n + 1].rows
    ensures steps[n].Creating? && steps[n].create.Insert? && steps[n].create.id == id
    ensures var x := steps[n].create;
      && x.c in states[n].calls && states[n].calls[x.c].CreateReady?
      && var req := states[n].calls[x.c].req;
        states[n + 1].rows[id] == Row(id, req.key, req.agentType, req.infraType, req.rawDir, x.plugins, Init, None, req.labels, x.now, 0)
  {
    hide IsRun, Inv, Steps;
    RunInv(installTimeout, states, steps, n);
    RunStep(installTimeout, states, steps, n);
    StepAdds(states[n], steps[n], states[n + 1], id);
  }

  // ----- the steps of a delete -----

  lemma AskOutcome(s: State, c: nat, id: Id)
    ensures Enabled(s, Deleting(BeginDelete(c, id))) <==> s.stop == NoStop && c !in s.calls
    ensures Enabled(s, Deleting(BeginDelete(c, id))) ==>
      ApplyDelete(s, BeginDelete(c, id)) == s.(calls := s.calls[c := DeleteBegun(id)], apiCount := s.apiCount + 1)
  {}

  lemma CheckOutcome(s: State, c: nat, id: Id)
    requires c in s.calls && s.calls[c] == DeleteBegun(id)
    ensures Enabled(s, Deleting(CheckOpen(c)))
    ensures var d := ApplyDelete(s, CheckOpen(c));
      if s.pool.stopped then Returns(s, d, c) else d == s.(calls := s.calls[c := DeleteChecked(id)])
  {
    hide Proceed, Returns;
    ProceedOutcome(s, c, if s.pool.stopped then None else Some(DeleteChecked(id)));
  }

  /** The queue loses exactly the jobs of this id, in the same region that finds the cancel function of a running one. */
  lemma TakeOutcome(s: State, c: nat, id: Id)
    requires c in s.calls && s.calls[c] == DeleteChecked(id)
    ensures Enabled(s, Deleting(TakeJobs(c)))
    ensures var d, p := ApplyDelete(s, TakeJobs(c)), s.pool;
      && d == s.(pool := p.(queue := d.pool.queue, dropped := d.pool.dropped),
                 calls := s.calls[c := DeleteTaken(id, id in s.ticketOf, if id in p.installCancel then Some(p.installCancel[id]) else None)])
      && Emptied(p, d.pool, id)
  {
    Jobs.WithoutIsFilter(s.pool.queue, id);
    hide Jobs.Without;
  }

  /** The jobs of the id are dropped, the others stay. */
  ghost predicate Emptied(p: Jobs.Pool, q: Jobs.Pool, id: Id) {
    && (forall j :: j in q.queue <==> j in p.queue && j.id != id)
    && q.dropped == p.dropped + set j | j in p.queue && j.id == id :: j.ticket
  }

  lemma WaitOutcome(s: State, c: nat, id: Id)
    requires c in s.calls && s.calls[c].DeleteTaken? && s.calls[c].id == id
    ensures Enabled(s, Deleting(FireCancel(c)))
    ensures var f := s.calls[c];
      ApplyDelete(s, FireCancel(c)) == s.(calls := s.calls[c := DeleteWaiting(id, f.known)],
        pool := s.pool.(cancelled := s.pool.cancelled + if f.cancel.Some? then {f.cancel.value} else {}))
  {
    assert s.pool.cancelled + {} == s.pool.cancelled;
  }

  /** The wait is over exactly when no install of the id is counted; it is given up only while one is. */
  lemma PassOutcome(s: State, c: nat, id: Id)
    requires c in s.calls && s.calls[c].DeleteWaiting? && s.calls[c].id == id
    ensures Enabled(s, Deleting(PassIdle(c))) <==> id !in s.pool.installRunning
    ensures Enabled(s, Deleting(GiveUpWait(c))) <==> id in s.pool.installRunning
    ensures id !in s.pool.installRunning ==>
      ApplyDelete(s, PassIdle(c)) == s.(calls := s.calls[c := DeleteIdle(id)], fenced := s.fenced + if s.calls[c].known then {id} else {})
    ensures id in s.pool.installRunning ==> Returns(s, ApplyDelete(s, GiveUpWait(c)), c)
  {
    hide DropCall, Returns;
    Dropped(s, c);
    assert s.fenced + {} == s.fenced;
  }

  lemma LookUpOutcome(s: State, c: nat, id: Id)
    requires c in s.calls && s.calls[c] == DeleteIdle(id)
    ensures Enabled(s, Deleting(LookUp(c)))
    ensures var d := ApplyDelete(s, LookUp(c));
      if !s.repoClosed && id in s.rows then d == s.(calls := s.calls[c := DeleteTearing(id)]) else Returns(s, d, c)
  {
    hide Proceed, Returns;
    ProceedOutcome(s, c, if s.repoClosed || id !in s.rows then None else Some(DeleteTearing(id)));
  }

  /** Whatever became of the tear-down, the row goes. */
  lemma TearOutcome(s: State, c: nat, id: Id)
    requires c in s.calls && s.calls[c] == DeleteTearing(id)
    ensures Enabled(s, Deleting(RemoveRow(c)))
    ensures Returns(if s.repoClosed then s else s.(rows := s.rows - {id}), ApplyDelete(s, RemoveRow(c)), c)
  {
    hide ApplyRemove, Returns;
    RemoveOutcome(s, c, id);
  }

  lemma DeleteGoesOn(s: State, ts: seq<Step>, m: State, t: DeleteStep)
    requires Leads(s, ts, m) && Coherent(m.rows) && DeleteEnabled(m, t)
    ensures Leads(s, ts + [Deleting(t)], ApplyDelete(m, t))
  {
    hide Leads, Coherent, DeleteEnabled, ApplyDelete;
    DeleteStepIs(m, t);
    hide Steps;
    LeadsThen(s, ts, m, Deleting(t), ApplyDelete(m, t));
  }

  lemma DeleteStepIs(m: State, t: DeleteStep)
    requires Coherent(m.rows) && DeleteEnabled(m, t)
    ensures Steps(m, Deleting(t), ApplyDelete(m, t))
  {
    hide Coherent, DeleteEnabled, ApplyDelete;
  }

  // ----- a delete from end to end -----

  function DeleteSteps(c: nat, id: Id): seq<Step> {
    [] + [Deleting(BeginDelete(c, id))] + [Deleting(CheckOpen(c))] + [Deleting(TakeJobs(c))] + [Deleting(FireCancel(c))]
    + [Deleting(PassIdle(c))] + [Deleting(LookUp(c))] + [Deleting(RemoveRow(c))]
  }

  /** Up to the point where the queue is emptied. */
  lemma TakenAlone(s: State, c: nat, id: Id) returns (d: State)
    requires Coherent(s.rows) && s.stop == NoStop && c !in s.calls && !s.pool.stopped && id !in s.pool.installCancel
    ensures Leads(s, [] + [Deleting(BeginDelete(c, id))] + [Deleting(CheckOpen(c))] + [Deleting(TakeJobs(c))], d)
    ensures d == s.(pool := s.pool.(queue := d.pool.queue, dropped := d.pool.dropped), apiCount := s.apiCount + 1,
                    calls := s.calls[c := DeleteTaken(id, id in s.ticketOf, None)])
    ensures Emptied(s.pool, d.pool, id)
  {
    hide Leads, Coherent, Emptied, ApplyDelete, DeleteEnabled;
    NothingLeads(s);
    AskOutcome(s, c, id);
    DeleteGoesOn(s, [], s, BeginDelete(c, id));
    var s1 := ApplyDelete(s, BeginDelete(c, id));
    var ts := [] + [Deleting(BeginDelete(c, id))];
    CheckOutcome(s1, c, id);
    DeleteGoesOn(s, ts, s1, CheckOpen(c));
    var s2 := ApplyDelete(s1, CheckOpen(c));
    ts := ts + [Deleting(CheckOpen(c))];
    TakeOutcome(s2, c, id);
    DeleteGoesOn(s, ts, s2, TakeJobs(c));
    d := ApplyDelete(s2, TakeJobs(c));
    assert s.calls[c := DeleteBegun(id)][c := DeleteChecked(id)][c := d.calls[c]] == s.calls[c := d.calls[c]];
  }

  /** Up to the end of the wait, with no install of the id running. */
  lemma WaitedAlone(s: State, c: nat, id: Id) returns (d: State)
    requires Coherent(s.rows) && s.stop == NoStop && c !in s.calls && !s.pool.stopped
    requires id !in s.pool.installRunning && id !in s.pool.installCancel
    ensures Leads(s, [] + [Deleting(BeginDelete(c, id))] + [Deleting(CheckOpen(c))] + [Deleting(TakeJobs(c))] + [Deleting(FireCancel(c))]
                     + [Deleting(PassIdle(c))], d)
    ensures d == s.(pool := s.pool.(queue := d.pool.queue, dropped := d.pool.dropped), calls := s.calls[c := DeleteIdle(id)],
                    apiCount := s.apiCount + 1, fenced := s.fenced + if id in s.ticketOf then {id} else {})
    ensures Emptied(s.pool, d.pool, id)
  {
    hide Leads, Coherent, ApplyDelete, DeleteEnabled;
    var t := TakenAlone(s, c, id);
    var ts := [] + [Deleting(BeginDelete(c, id))] + [Deleting(CheckOpen(c))] + [Deleting(TakeJobs(c))];
    WaitOutcome(t, c, id);
    DeleteGoesOn(s, ts, t, FireCancel(c));
    var w := ApplyDelete(t, FireCancel(c));
    assert t.pool.cancelled + {} == t.pool.cancelled;
    hide Emptied;
    PassOutcome(w, c, id);
    DeleteGoesOn(s, ts + [Deleting(FireCancel(c))], w, PassIdle(c));
    d := ApplyDelete(w, PassIdle(c));
    assert s.calls[c := t.calls[c]][c := DeleteWaiting(id, id in s.ticketOf)][c := DeleteIdle(id)] == s.calls[c := DeleteIdle(id)];
  }

  /** A delete of a stored workspace with no install running, undisturbed, in full: the row and its queued jobs go, nothing else changes. */
  lemma DeleteAlone(s: State, c: nat, id: Id) returns (d: State)
    requires Coherent(s.rows) && s.stop == NoStop && c !in s.calls && s.createLock != Some(c) && !s.pool.stopped && !s.repoClosed
    requires id !in s.pool.installRunning && id !in s.pool.installCancel && id in s.rows
    ensures Leads(s, DeleteSteps(c, id), d)
    ensures d == s.(rows := s.rows - {id}, pool := s.pool.(queue := d.pool.queue, dropped := d.pool.dropped),
                    fenced := s.fenced + if id in s.ticketOf then {id} else {})
    ensures Emptied(s.pool, d.pool, id)
  {
    hide Leads, Coherent, Emptied, ApplyDelete, DeleteEnabled;
    var w := WaitedAlone(s, c, id);
    LookUpOutcome(w, c, id);
    var ts := [] + [Deleting(BeginDelete(c, id))] + [Deleting(CheckOpen(c))] + [Deleting(TakeJobs(c))] + [Deleting(FireCancel(c))] + [Deleting(PassIdle(c))];
    DeleteGoesOn(s, ts, w, LookUp(c));
    var t := ApplyDelete(w, LookUp(c));
    TearOutcome(t, c, id);
    DeleteGoesOn(s, ts + [Deleting(LookUp(c))], t, RemoveRow(c));
    d := ApplyDelete(t, RemoveRow(c));
    assert s.calls[c := DeleteIdle(id)][c := DeleteTearing(id)] - {c} == s.calls;
  }

  /** A row that a delete has removed is never stored again. */
  lemma DeletedForGood(installTimeout: int, states: seq<State>, steps: seq<Step>, n: nat, c: nat, j: nat)
    requires IsRun(installTimeout, states, steps) && n < |steps| == |states| - 1 && n < j < |states|
    requires steps[n] == Deleting(RemoveRow(c)) && c in states[n].calls && states[n].calls[c].DeleteTearing?
    requires !states[n].repoClosed && states[n].calls[c].id in states[n].rows
    ensures states[n].calls[c].id !in states[j].rows
  {
    hide IsRun, Steps, Inv;
    var s, id := states[n], states[n].calls[c].id;
    RunInv(installTimeout, states, steps, n);
    RunStep(installTimeout, states, steps, n);
    RemovedStep(s, states[n + 1], c, id);
    RunLater(installTimeout, states, steps, n + 1, j);
  }

  lemma RemovedStep(s: State, s': State, c: nat, id: Id)
    requires Inv(s) && Steps(s, Deleting(RemoveRow(c)), s') && c in s.calls && s.calls[c] == DeleteTearing(id) && !s.repoClosed && id in s.rows
    ensures id in s'.issued && id !in s'.rows
  {
    assert s.rows.Keys <= s.issued;
    hide Inv, Coherent, ApplyRemove;
    TearOutcome(s, c, id);
    hide ApplyDelete;
  }
}
