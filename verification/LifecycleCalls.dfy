/** Create and delete calls keep the lifecycle invariant. */
module LifecycleCalls {
  import opened Common
  import opened Keys
  import opened Workspaces
  import opened Paging
  import opened Lifecycle
  import opened LifecycleInv
  import LifecycleWork
  import Jobs = InstallPool

  // ----- a call begins, moves on, returns -----

  ghost predicate Idle(call: Call) {
    call.CreateBegun? || call.DeleteBegun? || call.OtherCall?
  }

  lemma BeginKeeps(s: State, c: nat, call: Call)
    requires Inv(s) && OpenGuard(s) && c !in s.calls && Idle(call)
    ensures Inv(AddCall(s, c, call))
  {
    hide TableInv, IdsInv, JobsInv, PhasesInv, CachesInv, ProbesInv, CallsInv, CreatorsInv, DeletersInv, OwnersInv, FenceInv, StopInv, Jobs.PoolInv, Idle;
    BeginOwners(s, c, call);
    BeginRest(s, c, call);
  }

  lemma BeginRest(s: State, c: nat, call: Call)
    requires CallsInv(s.calls, s.createLock, s.apiCount) && CreatorsInv(s.rows, s.issued, s.ticketOf, s.calls)
    requires DeletersInv(s.pool.queue, s.ticketOf, s.calls)
    requires StopInv(s.stop, s.repoClosed, s.rows, s.pool, s.sched, s.schedStopped, s.apiCount)
    requires OpenGuard(s) && c !in s.calls && Idle(call)
    ensures CallsInv(s.calls[c := call], s.createLock, s.apiCount + 1)
    ensures CreatorsInv(s.rows, s.issued, s.ticketOf, s.calls[c := call])
    ensures DeletersInv(s.pool.queue, s.ticketOf, s.calls[c := call])
    ensures StopInv(s.stop, s.repoClosed, s.rows, s.pool, s.sched, s.schedStopped, s.apiCount + 1)
  {
    hide CreatorOk, DeleterOk, Idle, PoolDrained, SchedGone, NoInit, CallsInv, StopInv;
    IdleOk(s.rows, s.issued, s.pool.queue, s.ticketOf, call);
    BeginCalls(s.calls, s.createLock, s.apiCount, c, call);
    BeginStop(s);
  }

  lemma BeginCalls(calls: map<nat, Call>, lock: Option<nat>, apiCount: nat, c: nat, call: Call)
    requires CallsInv(calls, lock, apiCount) && c !in calls && !LockedCall(call)
    ensures CallsInv(calls[c := call], lock, apiCount + 1)
  {
    hide LockedCall;
    assert calls[c := call].Keys == calls.Keys + {c};
  }

  /** Before the shutdown has begun nothing depends on the count. */
  lemma BeginStop(s: State)
    requires StopInv(s.stop, s.repoClosed, s.rows, s.pool, s.sched, s.schedStopped, s.apiCount) && OpenGuard(s)
    ensures StopInv(s.stop, s.repoClosed, s.rows, s.pool, s.sched, s.schedStopped, s.apiCount + 1)
  {
    hide NoInit, PoolDrained, SchedGone;
  }

  lemma IdleOk(t: Table, issued: set<Id>, queue: seq<Jobs.Job>, ticketOf: map<Id, nat>, call: Call)
    requires Idle(call)
    ensures CreatorOk(t, issued, ticketOf, call) && DeleterOk(queue, ticketOf, call) && !LockedCall(call)
  {}

  lemma BeginOwners(s: State, c: nat, call: Call)
    requires OwnersInv(s.rows, s.repoClosed, s.pool, s.installs, s.calls, s.ticketOf) && c !in s.calls
    ensures OwnersInv(s.rows, s.repoClosed, s.pool, s.installs, s.calls[c := call], s.ticketOf)
  {
    MoveOwners(s, c, call);
  }

  /** Replacing one call keeps every owner, when the new call owns what the old one did. */
  lemma MoveOwners(s: State, c: nat, call: Call)
    requires OwnersInv(s.rows, s.repoClosed, s.pool, s.installs, s.calls, s.ticketOf)
    requires c in s.calls ==> forall id :: (Creates(s.calls[c], id) ==> Creates(call, id)) && (Deletes(s.calls[c], id) ==> Deletes(call, id))
    ensures OwnersInv(s.rows, s.repoClosed, s.pool, s.installs, s.calls[c := call], s.ticketOf)
  {
    var calls := s.calls[c := call];
    if !s.repoClosed {
      forall id | id in s.rows && s.rows[id].status == Init ensures Owned(s.pool, s.installs, calls, s.ticketOf, id) {
        assert Owned(s.pool, s.installs, s.calls, s.ticketOf, id);
        if d :| d in s.calls && Creates(s.calls[d], id) {
          assert d in calls && Creates(calls[d], id);
        } else if d :| d in s.calls && Deletes(s.calls[d], id) {
          assert d in calls && Deletes(calls[d], id);
        }
      }
    }
  }

  lemma MoveKeeps(s: State, c: nat, call: Call)
    requires Inv(s) && c in s.calls && LockedCall(call) == LockedCall(s.calls[c])
    requires CreatorOk(s.rows, s.issued, s.ticketOf, call) && DeleterOk(s.pool.queue, s.ticketOf, call)
    requires forall id :: (Creates(s.calls[c], id) ==> Creates(call, id)) && (Deletes(s.calls[c], id) ==> Deletes(call, id))
    ensures Inv(s.(calls := s.calls[c := call]))
  {
    hide TableInv, IdsInv, JobsInv, PhasesInv, CachesInv, ProbesInv, FenceInv, Jobs.PoolInv, OwnersInv, StopInv, CallsInv, CreatorsInv, DeletersInv;
    hide CreatorOk, DeleterOk;
    MoveOwners(s, c, call);
    MoveRest(s, c, call);
  }

  lemma MoveRest(s: State, c: nat, call: Call)
    requires CallsInv(s.calls, s.createLock, s.apiCount) && CreatorsInv(s.rows, s.issued, s.ticketOf, s.calls)
    requires DeletersInv(s.pool.queue, s.ticketOf, s.calls)
    requires c in s.calls && LockedCall(call) == LockedCall(s.calls[c])
    requires CreatorOk(s.rows, s.issued, s.ticketOf, call) && DeleterOk(s.pool.queue, s.ticketOf, call)
    ensures CallsInv(s.calls[c := call], s.createLock, s.apiCount)
    ensures CreatorsInv(s.rows, s.issued, s.ticketOf, s.calls[c := call])
    ensures DeletersInv(s.pool.queue, s.ticketOf, s.calls[c := call])
  {
    hide CreatorOk, DeleterOk;
    assert s.calls[c := call].Keys == s.calls.Keys;
    assert |s.calls[c := call]| == |s.calls|;
  }

  /** No row in init loses its last owner when this call returns over this table. */
  ghost predicate Leaves(s: State, c: nat, t: Table)
    requires c in s.calls
  {
    !s.repoClosed ==> forall id :: (Creates(s.calls[c], id) || Deletes(s.calls[c], id)) && id in t && t[id].status == Init ==>
      Owned(s.pool, s.installs, s.calls - {c}, s.ticketOf, id)
  }

  lemma DropOwners(s: State, c: nat, t: Table)
    requires OwnersInv(t, s.repoClosed, s.pool, s.installs, s.calls, s.ticketOf)
    requires c in s.calls && Leaves(s, c, t)
    ensures OwnersInv(t, s.repoClosed, s.pool, s.installs, s.calls - {c}, s.ticketOf)
  {
    var calls := s.calls - {c};
    if !s.repoClosed {
      forall id | id in t && t[id].status == Init ensures Owned(s.pool, s.installs, calls, s.ticketOf, id) {
        assert Owned(s.pool, s.installs, s.calls, s.ticketOf, id);
        if !Creates(s.calls[c], id) && !Deletes(s.calls[c], id) {
          if d :| d in s.calls && Creates(s.calls[d], id) {
            assert d in calls && Creates(calls[d], id);
          } else if d :| d in s.calls && Deletes(s.calls[d], id) {
            assert d in calls && Deletes(calls[d], id);
          }
        }
      }
    }
  }

  lemma DropRest(s: State, c: nat, t: Table)
    requires CallsInv(s.calls, s.createLock, s.apiCount) && c in s.calls
    requires CreatorsInv(t, s.issued, s.ticketOf, s.calls) && DeletersInv(s.pool.queue, s.ticketOf, s.calls)
    ensures var d := DropCall(s, c);
      && CallsInv(d.calls, d.createLock, d.apiCount)
      && CreatorsInv(t, s.issued, s.ticketOf, d.calls) && DeletersInv(s.pool.queue, s.ticketOf, d.calls)
      && d.apiCount <= s.apiCount
  {
    hide CreatorOk, DeleterOk;
    assert (s.calls - {c}).Keys == s.calls.Keys - {c};
    assert |s.calls| > 0 by { assert c in s.calls.Keys; }
  }

  lemma StopFewer(s: State, t: Table, n: nat)
    requires StopInv(s.stop, s.repoClosed, s.rows, s.pool, s.sched, s.schedStopped, s.apiCount)
    requires PastClose(s.stop) && Clean(s.stop) ==> NoInit(t)
    requires n <= s.apiCount
    ensures StopInv(s.stop, s.repoClosed, t, s.pool, s.sched, s.schedStopped, n)
  {}

  lemma DropKeeps(s: State, c: nat, t: Table)
    requires Inv(s) && c in s.calls && NarrowsSafely(s.rows, t) && Leaves(s, c, t)
    ensures Inv(DropCall(s.(rows := t), c))
  {
    hide TableInv, IdsInv, JobsInv, PhasesInv, CachesInv, ProbesInv, CallsInv, CreatorsInv, DeletersInv, OwnersInv, FenceInv, StopInv;
    hide Jobs.PoolInv, Leaves, NarrowsSafely;
    TablePartsKept(s, t);
    DropOwners(s, c, t);
    DropRest(s, c, t);
    StopFewer(s, t, DropCall(s, c).apiCount);
  }

  lemma DropIdleKeeps(s: State, c: nat)
    requires Inv(s) && c in s.calls && forall id :: !Creates(s.calls[c], id) && !Deletes(s.calls[c], id)
    ensures Inv(DropCall(s, c))
  {
    SameNarrows(s.rows);
    assert s.(rows := s.rows) == s;
    DropKeeps(s, c, s.rows);
  }

  // ----- create -----

  lemma LockKeeps(s: State, c: nat)
    requires Inv(s) && CreateEnabled(s, LockCreate(c))
    ensures Inv(ApplyLock(s, c))
  {
    hide TableInv, IdsInv, JobsInv, PhasesInv, CachesInv, ProbesInv, FenceInv, Jobs.PoolInv, OwnersInv, StopInv, CallsInv, CreatorsInv, DeletersInv;
    hide CreatorOk, DeleterOk, WantDir, ValidNamespace;
    var req := s.calls[c].req;
    var call := if WantDir(req).Some? then CreateScanning(req, "") else CreateReady(req);
    ScanStarts(s.rows, s.issued, s.ticketOf, req);
    hide LockedCall, Creates, Deletes;
    LockMoves(s.calls[c], call);
    MoveOwners(s, c, call);
    LockRest(s, c, call);
  }

  lemma LockMoves(was: Call, call: Call)
    requires was.CreateBegun? && (call.CreateScanning? || call.CreateReady?)
    ensures LockedCall(call) && forall id :: !Creates(was, id) && !Deletes(was, id)
  {}

  lemma ScanStarts(t: Table, issued: set<Id>, ticketOf: map<Id, nat>, req: Request)
    requires TableInv(t) && ValidNamespace(req.key.ns)
    ensures CreatorOk(t, issued, ticketOf, if WantDir(req).Some? then CreateScanning(req, "") else CreateReady(req))
  {}

  lemma LockRest(s: State, c: nat, call: Call)
    requires CallsInv(s.calls, s.createLock, s.apiCount) && CreatorsInv(s.rows, s.issued, s.ticketOf, s.calls)
    requires DeletersInv(s.pool.queue, s.ticketOf, s.calls)
    requires c in s.calls && s.createLock.None? && LockedCall(call) && CreatorOk(s.rows, s.issued, s.ticketOf, call)
    ensures CallsInv(s.calls[c := call], Some(c), s.apiCount)
    ensures CreatorsInv(s.rows, s.issued, s.ticketOf, s.calls[c := call])
    ensures DeletersInv(s.pool.queue, s.ticketOf, s.calls[c := call])
  {
    hide CreatorOk, DeleterOk;
    assert DeleterOk(s.pool.queue, s.ticketOf, call) by { NotDeleter(s.pool.queue, s.ticketOf, call); }
    assert s.calls[c := call].Keys == s.calls.Keys;
    assert |s.calls[c := call]| == |s.calls|;
  }

  lemma NotDeleter(queue: seq<Jobs.Job>, ticketOf: map<Id, nat>, call: Call)
    requires LockedCall(call)
    ensures DeleterOk(queue, ticketOf, call)
  {}

  /** One page either shows the directory, or moves the searched region forward. */
  lemma ScanAdvances(t: Table, want: Option<string>, cursor: string)
    requires TableInv(t) && NoDirBefore(t, want, cursor)
    requires ListPage(t, ScanFilter, SCAN_PAGE, cursor).Ok?
    requires !PageHasDir(ListPage(t, ScanFilter, SCAN_PAGE, cursor).value.rows, want)
    ensures var next := ListPage(t, ScanFilter, SCAN_PAGE, cursor).value.next;
      if next == "" then NoDir(t, want) else NoDirBefore(t, want, next)
  {
    hide ListPage, Matches, Paging.ValidCursor, AfterOf, DirOf;
    assert WellFormed(t);
    PageCovers(t, ScanFilter, SCAN_PAGE, cursor);
    var page := ListPage(t, ScanFilter, SCAN_PAGE, cursor).value;
    forall id | id in t && DirOf(t[id]) == want
      ensures page.next != "" && Selected(t, ScanFilter, AfterOf(page.next), t[id])
    {
      assert Selected(t, ScanFilter, AfterOf(cursor), t[id]);
      assert t[id] !in page.rows;
    }
  }

  lemma CallParts(s: State, c: nat)
    requires Inv(s) && c in s.calls
    ensures TableInv(s.rows) && Coherent(s.rows)
    ensures CreatorOk(s.rows, s.issued, s.ticketOf, s.calls[c]) && DeleterOk(s.pool.queue, s.ticketOf, s.calls[c])
  {
    hide IdsInv, JobsInv, PhasesInv, CachesInv, ProbesInv, CallsInv, OwnersInv, FenceInv, StopInv, Jobs.PoolInv, DeleterOk, CreatorOk;
  }

  /** A call that goes on keeps its lock and owns what it did; one that returns owned nothing. */
  lemma ProceedKeeps(s: State, c: nat, next: Option<Call>)
    requires Inv(s) && c in s.calls
    requires next.Some? ==>
      && LockedCall(next.value) == LockedCall(s.calls[c])
      && CreatorOk(s.rows, s.issued, s.ticketOf, next.value) && DeleterOk(s.pool.queue, s.ticketOf, next.value)
      && forall id :: (Creates(s.calls[c], id) ==> Creates(next.value, id)) && (Deletes(s.calls[c], id) ==> Deletes(next.value, id))
    requires next.None? ==> Leaves(s, c, s.rows)
    ensures Inv(Proceed(s, c, next))
  {
    SameNarrows(s.rows);
    hide Inv, CreatorOk, DeleterOk, LockedCall, Creates, Deletes, Leaves, NarrowsSafely, DropCall;
    if next.Some? {
      MoveKeeps(s, c, next.value);
    } else {
      assert s.(rows := s.rows) == s;
      DropKeeps(s, c, s.rows);
    }
  }

  lemma ScannedOk(s: State, req: Request, cursor: string)
    requires TableInv(s.rows) && Coherent(s.rows) && CreatorOk(s.rows, s.issued, s.ticketOf, CreateScanning(req, cursor))
    ensures var next := Scanned(s, req, cursor);
      next.Some? ==> (next.value.CreateReady? || next.value.CreateScanning?) && CreatorOk(s.rows, s.issued, s.ticketOf, next.value)
  {
    hide TableInv, Coherent, ListPage, NoDirBefore, NoDir, ValidNamespace, PageHasDir;
    if Scanned(s, req, cursor).Some? {
      ScanAdvances(s.rows, WantDir(req), cursor);
    }
  }

  lemma ScannerOwnsNothing(s: State, c: nat)
    requires InScan(s, c)
    ensures Leaves(s, c, s.rows)
    ensures forall id :: !Creates(s.calls[c], id) && !Deletes(s.calls[c], id)
  {}

  lemma ScanKeeps(s: State, c: nat)
    requires Inv(s) && InScan(s, c) && Coherent(s.rows)
    ensures Inv(Proceed(s, c, Scanned(s, s.calls[c].req, s.calls[c].cursor)))
  {
    hide Inv, TableInv, Coherent, Scanned, CreatorOk, DeleterOk, Proceed, Owned, NarrowsSafely;
    CallParts(s, c);
    var next := Scanned(s, s.calls[c].req, s.calls[c].cursor);
    assert s.calls[c] == CreateScanning(s.calls[c].req, s.calls[c].cursor);
    ScannedOk(s, s.calls[c].req, s.calls[c].cursor);
    if next.Some? { NotDeleter(s.pool.queue, s.ticketOf, next.value); }
    ScannerOwnsNothing(s, c);
    hide Leaves;
    ProceedKeeps(s, c, next);
  }

  // ----- insert -----

  /** The checks before an insert are what keeps ids, keys, directories and namespaces sound. */
  lemma InsertedTable(t: Table, req: Request, id: Id, plugins: seq<Attached>, now: int)
    requires TableInv(t) && ValidNamespace(req.key.ns) && NoDir(t, WantDir(req)) && id !in t
    requires InsertRow(t, NewRow(req, id, plugins, now)).Ok?
    ensures TableInv(t[id := NewRow(req, id, plugins, now)])
  {
    var r := NewRow(req, id, plugins, now);
    var t' := t[id := r];
    assert DirOf(r) == WantDir(req);
    assert StatusAgrees(r);
    assert NulFree(t') by { assert NUL !in r.key.ns; }
    assert KeysDistinct(t') by {
      assert !AliasTaken(t, r.key);
    }
    assert DirsDistinct(t') by {
      hide DirOption, Known;
      forall a | a in t ensures DirOf(r).Some? ==> DirOf(t[a]) != DirOf(r) {}
    }
  }

  /** The create mutex: while one call holds it, no other is scanning, ready, inserted or rejected. */
  lemma OthersUnlocked(s: State, c: nat, d: nat)
    requires CallsInv(s.calls, s.createLock, s.apiCount) && c in s.calls && LockedCall(s.calls[c])
    requires d in s.calls && d != c
    ensures !LockedCall(s.calls[d])
  {}

  lemma FreeCreatorOk(t: Table, issued: set<Id>, ticketOf: map<Id, nat>, call: Call)
    requires !LockedCall(call)
    ensures CreatorOk(t, issued, ticketOf, call)
  {}

  lemma InsertedCreators(s: State, c: nat, id: Id, t: Table)
    requires CallsInv(s.calls, s.createLock, s.apiCount) && c in s.calls && s.calls[c].CreateReady?
    requires IdsInv(s.rows, s.issued, s.ticketOf) && id !in s.issued
    ensures CreatorsInv(t, s.issued + {id}, s.ticketOf, s.calls[c := CreateInserted(id)])
  {
    forall d | d in s.calls && d != c ensures CreatorOk(t, s.issued + {id}, s.ticketOf, s.calls[d]) {
      OthersUnlocked(s, c, d);
      FreeCreatorOk(t, s.issued + {id}, s.ticketOf, s.calls[d]);
    }
  }

  lemma InsertedOwners(s: State, c: nat, id: Id, r: Row)
    requires OwnersInv(s.rows, s.repoClosed, s.pool, s.installs, s.calls, s.ticketOf)
    requires c in s.calls && s.calls[c].CreateReady?
    ensures OwnersInv(s.rows[id := r], s.repoClosed, s.pool, s.installs, s.calls[c := CreateInserted(id)], s.ticketOf)
  {
    MoveOwners(s, c, CreateInserted(id));
    var calls := s.calls[c := CreateInserted(id)];
    assert c in calls && Creates(calls[c], id);
  }

  lemma InsertedRest(s: State, c: nat, id: Id, r: Row)
    requires IdsInv(s.rows, s.issued, s.ticketOf) && CachesInv(s.rows, s.issued, s.installs, s.probes) && id !in s.issued
    requires CallsInv(s.calls, s.createLock, s.apiCount) && DeletersInv(s.pool.queue, s.ticketOf, s.calls)
    requires c in s.calls && s.calls[c].CreateReady?
    ensures IdsInv(s.rows[id := r], s.issued + {id}, s.ticketOf)
    ensures CachesInv(s.rows[id := r], s.issued + {id}, s.installs, s.probes)
    ensures CallsInv(s.calls[c := CreateInserted(id)], s.createLock, s.apiCount)
    ensures DeletersInv(s.pool.queue, s.ticketOf, s.calls[c := CreateInserted(id)])
  {
    hide SameFixed;
    assert s.calls[c := CreateInserted(id)].Keys == s.calls.Keys;
    assert |s.calls[c := CreateInserted(id)]| == |s.calls|;
  }

  lemma StopOpenRows(s: State, t: Table)
    requires StopInv(s.stop, s.repoClosed, s.rows, s.pool, s.sched, s.schedStopped, s.apiCount) && !s.repoClosed
    ensures StopInv(s.stop, s.repoClosed, t, s.pool, s.sched, s.schedStopped, s.apiCount)
  {}

  lemma IssueRest(s: State, id: Id)
    requires IdsInv(s.rows, s.issued, s.ticketOf) && CachesInv(s.rows, s.issued, s.installs, s.probes)
    requires CreatorsInv(s.rows, s.issued, s.ticketOf, s.calls)
    ensures IdsInv(s.rows, s.issued + {id}, s.ticketOf) && CachesInv(s.rows, s.issued + {id}, s.installs, s.probes)
    ensures CreatorsInv(s.rows, s.issued + {id}, s.ticketOf, s.calls)
  {
    hide SameFixed, NoDir, NoDirBefore, ValidNamespace;
    forall c | c in s.calls ensures CreatorOk(s.rows, s.issued + {id}, s.ticketOf, s.calls[c]) {
      assert CreatorOk(s.rows, s.issued, s.ticketOf, s.calls[c]);
    }
  }

  lemma IssueKeeps(s: State, id: Id)
    requires Inv(s)
    ensures Inv(s.(issued := s.issued + {id}))
  {
    hide TableInv, IdsInv, JobsInv, PhasesInv, CachesInv, ProbesInv, CallsInv, CreatorsInv, DeletersInv, OwnersInv, FenceInv, StopInv, Jobs.PoolInv;
    IssueRest(s, id);
  }

  lemma InsertedKeeps(s: State, c: nat, r: Row, plugins: seq<Attached>, now: int)
    requires Inv(s) && c in s.calls && s.calls[c].CreateReady? && r.id !in s.issued && !s.repoClosed
    requires r == NewRow(s.calls[c].req, r.id, plugins, now) && InsertRow(s.rows, r).Ok?
    ensures Inv(s.(issued := s.issued + {r.id}, rows := s.rows[r.id := r], calls := s.calls[c := CreateInserted(r.id)]))
  {
    CallParts(s, c);
    InsertedTable(s.rows, s.calls[c].req, r.id, plugins, now);
    hide TableInv, IdsInv, JobsInv, PhasesInv, CachesInv, ProbesInv, CallsInv, CreatorsInv, DeletersInv, OwnersInv, FenceInv, StopInv, Jobs.PoolInv;
    hide ValidNamespace, NoDir, NewRow, InsertRow;
    InsertedCreators(s, c, r.id, s.rows[r.id := r]);
    InsertedOwners(s, c, r.id, r);
    InsertedRest(s, c, r.id, r);
    StopOpenRows(s, s.rows[r.id := r]);
  }

  lemma InsertKeeps(s: State, c: nat, id: Id, plugins: seq<Attached>, now: int)
    requires Inv(s) && c in s.calls && s.calls[c].CreateReady? && id !in s.issued
    ensures Inv(ApplyInsert(s, c, id, plugins, now))
  {
    hide Inv;
    var r := NewRow(s.calls[c].req, id, plugins, now);
    var w := InsertRow(s.rows, r);
    if Write(s, w).Ok? {
      InsertedKeeps(s, c, r, plugins, now);
    } else {
      hide InsertRow, NewRow;
      IssueKeeps(s, id);
      DropIdleKeeps(s.(issued := s.issued + {id}), c);
    }
  }

  // ----- submit and undo -----

  lemma SubmitFacts(p: Jobs.Pool, id: Id)
    requires Jobs.PoolInv(p) && Jobs.Accepts(p)
    ensures var q := Jobs.Apply(p, Jobs.Submit(id));
      && Jobs.PoolInv(q)
      && q.queue == p.queue + [Jobs.Job(id, p.nextTicket)] && q.nextTicket == p.nextTicket + 1
      && q.workers == p.workers && q.finished == p.finished && q.dropped == p.dropped
      && q.started == p.started && q.stopped == p.stopped && q.doneCloses == p.doneCloses
  {
    hide Jobs.PoolInv;
    Jobs.SubmitKeeps(p, id);
  }

  lemma SubmitJobs(p: Jobs.Pool, q: Jobs.Pool, ticketOf: map<Id, nat>, id: Id)
    requires JobsInv(p, ticketOf) && id !in ticketOf
    requires q.queue == p.queue + [Jobs.Job(id, p.nextTicket)] && q.nextTicket == p.nextTicket + 1 && q.workers == p.workers
    ensures JobsInv(q, ticketOf[id := p.nextTicket])
  {
    assert forall i :: 0 <= i < |q.queue| ==> q.queue[i] == if i < |p.queue| then p.queue[i] else Jobs.Job(id, p.nextTicket);
  }

  lemma SubmitOwners(s: State, q: Jobs.Pool, c: nat, id: Id)
    requires OwnersInv(s.rows, s.repoClosed, s.pool, s.installs, s.calls, s.ticketOf)
    requires c in s.calls && s.calls[c] == CreateInserted(id) && id !in s.ticketOf
    requires q.queue == s.pool.queue + [Jobs.Job(id, s.pool.nextTicket)] && q.workers == s.pool.workers && q.dropped == s.pool.dropped
    ensures OwnersInv(s.rows, s.repoClosed, q, s.installs, s.calls - {c}, s.ticketOf[id := s.pool.nextTicket])
  {
    var calls, tickets := s.calls - {c}, s.ticketOf[id := s.pool.nextTicket];
    assert q.queue[|s.pool.queue|].id == id;
    if !s.repoClosed {
      forall x | x in s.rows && s.rows[x].status == Init ensures Owned(q, s.installs, calls, tickets, x) {
        assert Owned(s.pool, s.installs, s.calls, s.ticketOf, x);
        if x != id {
          if d :| d in s.calls && Creates(s.calls[d], x) {
            assert d in calls && Creates(calls[d], x);
          } else if i :| 0 <= i < |s.pool.queue| && s.pool.queue[i].id == x {
            assert q.queue[i].id == x;
          } else if w :| DrivenBy(s.pool.workers, s.installs, w, x) {
            assert DrivenBy(q.workers, s.installs, w, x);
          } else {
            var d :| d in s.calls && Deletes(s.calls[d], x);
            assert d in calls && Deletes(calls[d], x);
          }
        }
      }
    }
  }

  lemma SubmitCreators(s: State, c: nat, tickets: map<Id, nat>)
    requires CallsInv(s.calls, s.createLock, s.apiCount) && c in s.calls && s.calls[c].CreateInserted?
    ensures CreatorsInv(s.rows, s.issued, tickets, s.calls - {c})
  {
    forall d | d in s.calls && d != c ensures CreatorOk(s.rows, s.issued, tickets, s.calls[d]) {
      OthersUnlocked(s, c, d);
      FreeCreatorOk(s.rows, s.issued, tickets, s.calls[d]);
    }
  }

  lemma SubmitDeleters(s: State, queue: seq<Jobs.Job>, c: nat, id: Id)
    requires DeletersInv(s.pool.queue, s.ticketOf, s.calls) && id !in s.ticketOf
    requires queue == s.pool.queue + [Jobs.Job(id, s.pool.nextTicket)]
    ensures DeletersInv(queue, s.ticketOf[id := s.pool.nextTicket], s.calls - {c})
  {
    forall d | d in s.calls ensures DeleterOk(queue, s.ticketOf[id := s.pool.nextTicket], s.calls[d]) {
      assert DeleterOk(s.pool.queue, s.ticketOf, s.calls[d]);
    }
  }

  lemma SubmitKeeps(s: State, c: nat)
    requires Inv(s) && c in s.calls && s.calls[c].CreateInserted?
    ensures Inv(ApplySubmit(s, c))
  {
    hide Jobs.Apply, TableInv, JobsInv, PhasesInv, CachesInv, ProbesInv, CallsInv, CreatorsInv, DeletersInv, OwnersInv, FenceInv, StopInv, Jobs.PoolInv;
    var id := s.calls[c].id;
    CallParts(s, c);
    assert id in s.issued && id !in s.ticketOf;
    if Jobs.Accepts(s.pool) {
      var q := Jobs.Apply(s.pool, Jobs.Submit(id));
      SubmitFacts(s.pool, id);
      SubmitJobs(s.pool, q, s.ticketOf, id);
      SubmitOwners(s, q, c, id);
      SubmitCreators(s, c, s.ticketOf[id := s.pool.nextTicket]);
      SubmitDeleters(s, q.queue, c, id);
      DropRest(s, c, s.rows);
      FenceTickets(s, id, s.pool.nextTicket);
      LifecycleWork.StopPoolKept(s, q);
      StopFewer(s.(pool := q), s.rows, DropCall(s, c).apiCount);
    } else {
      hide Inv;
      NotDeleter(s.pool.queue, s.ticketOf, CreateRejected(id));
      MoveKeeps(s, c, CreateRejected(id));
    }
  }

  lemma FenceTickets(s: State, id: Id, ticket: nat)
    requires FenceInv(s.fenced, s.ticketOf, s.pool.finished, s.pool.dropped) && id !in s.ticketOf
    ensures FenceInv(s.fenced, s.ticketOf[id := ticket], s.pool.finished, s.pool.dropped)
  {}

  /** Removing the row a call is about, then returning. */
  lemma RemoveKeeps(s: State, c: nat, id: Id)
    requires Inv(s) && c in s.calls
    requires forall x :: Creates(s.calls[c], x) || Deletes(s.calls[c], x) ==> x == id
    ensures Inv(ApplyRemove(s, c, id))
  {
    DeleteNarrows(s.rows, id);
    SameNarrows(s.rows);
    var t := RowsAfter(s, DeleteRow(s.rows, id));
    assert Leaves(s, c, t);
    hide Inv, NarrowsSafely, Leaves, DropCall;
    DropKeeps(s, c, t);
  }

  lemma CreateKeeps(s: State, t: CreateStep)
    requires Inv(s) && CreateEnabled(s, t)
    ensures Inv(ApplyCreate(s, t))
  {
    hide Inv, TableInv, Coherent, AddCall, DropCall, Scanned, Proceed, ApplyLock, ApplyInsert, ApplySubmit, ApplyRemove;
    match t
    case BeginCreate(c, req) => BeginKeeps(s, c, CreateBegun(req));
    case BeginOther(c) => BeginKeeps(s, c, OtherCall);
    case EndOther(c) => DropIdleKeeps(s, c);
    case AbortCreate(c) => DropIdleKeeps(s, c);
    case LockCreate(c) => LockKeeps(s, c);
    case ScanNextPage(c) => CallParts(s, c); ScanKeeps(s, c);
    case Insert(c, id, plugins, now) => InsertKeeps(s, c, id, plugins, now);
    case SubmitJob(c) => SubmitKeeps(s, c);
    case UndoInsert(c) => RemoveKeeps(s, c, s.calls[c].id);
  }

  // ----- delete -----

  lemma TakeFacts(p: Jobs.Pool, id: Id)
    requires Jobs.PoolInv(p)
    ensures var q := Jobs.Apply(p, Jobs.TakeQueued(id));
      && Jobs.PoolInv(q)
      && q.queue == Jobs.Without(p.queue, id) && q.nextTicket == p.nextTicket
      && q.workers == p.workers && q.finished == p.finished && p.dropped <= q.dropped
      && (forall i :: 0 <= i < |p.queue| && p.queue[i].id == id ==> p.queue[i].ticket in q.dropped)
      && q.started == p.started && q.stopped == p.stopped && q.doneCloses == p.doneCloses
  {
    hide Jobs.PoolInv;
    Jobs.TakeKeeps(p, id);
    forall i | 0 <= i < |p.queue| && p.queue[i].id == id ensures p.queue[i].ticket in Jobs.Apply(p, Jobs.TakeQueued(id)).dropped {
      assert p.queue[i] in p.queue;
    }
  }

  lemma TakeJobsInv(p: Jobs.Pool, q: Jobs.Pool, ticketOf: map<Id, nat>, id: Id)
    requires JobsInv(p, ticketOf)
    requires q.queue == Jobs.Without(p.queue, id) && q.nextTicket == p.nextTicket && q.workers == p.workers
    ensures JobsInv(q, ticketOf)
  {
    Jobs.WithoutIsFilter(p.queue, id);
    hide Ticketed, Jobs.Without;
    forall i | 0 <= i < |q.queue| ensures Ticketed(q.queue[i], ticketOf) {
      assert q.queue[i] in q.queue;
      var k :| 0 <= k < |p.queue| && p.queue[k] == q.queue[i];
    }
  }

  lemma TakeOwners(s: State, q: Jobs.Pool, c: nat, call: Call)
    requires OwnersInv(s.rows, s.repoClosed, s.pool, s.installs, s.calls, s.ticketOf) && JobsInv(s.pool, s.ticketOf)
    requires c in s.calls && s.calls[c].DeleteChecked? && call.DeleteTaken? && call.id == s.calls[c].id
    requires q.queue == Jobs.Without(s.pool.queue, call.id) && q.workers == s.pool.workers && s.pool.dropped <= q.dropped
    requires forall i :: 0 <= i < |s.pool.queue| && s.pool.queue[i].id == call.id ==> s.pool.queue[i].ticket in q.dropped
    ensures OwnersInv(s.rows, s.repoClosed, q, s.installs, s.calls[c := call], s.ticketOf)
  {
    var calls := s.calls[c := call];
    Jobs.WithoutIsFilter(s.pool.queue, call.id);
    hide Jobs.Without;
    if !s.repoClosed {
      forall x | x in s.rows && s.rows[x].status == Init ensures Owned(q, s.installs, calls, s.ticketOf, x) {
        assert Owned(s.pool, s.installs, s.calls, s.ticketOf, x);
        if d :| d in s.calls && Creates(s.calls[d], x) {
          assert d in calls && Creates(calls[d], x);
        } else if i :| 0 <= i < |s.pool.queue| && s.pool.queue[i].id == x {
          assert Ticketed(s.pool.queue[i], s.ticketOf);
          if x == call.id {
            assert c in calls && Deletes(calls[c], x);
          } else {
            assert s.pool.queue[i] in s.pool.queue;
            var k :| 0 <= k < |q.queue| && q.queue[k] == s.pool.queue[i];
            assert QueuedFor(q.queue, x);
          }
        } else if w :| DrivenBy(s.pool.workers, s.installs, w, x) {
          assert DrivenBy(q.workers, s.installs, w, x);
        } else {
          var d :| d in s.calls && Deletes(s.calls[d], x);
          assert d in calls && Deletes(calls[d], x);
        }
      }
    }
  }

  lemma TakeDeleters(s: State, queue: seq<Jobs.Job>, c: nat, call: Call)
    requires DeletersInv(s.pool.queue, s.ticketOf, s.calls)
    requires call.DeleteTaken? && (call.known <==> call.id in s.ticketOf) && queue == Jobs.Without(s.pool.queue, call.id)
    ensures DeletersInv(queue, s.ticketOf, s.calls[c := call])
  {
    Jobs.WithoutIsFilter(s.pool.queue, call.id);
    hide Jobs.Without;
    forall i | 0 <= i < |queue| ensures queue[i] in s.pool.queue && queue[i].id != call.id { assert queue[i] in queue; }
    forall d | d in s.calls ensures DeleterOk(queue, s.ticketOf, s.calls[d]) {
      assert DeleterOk(s.pool.queue, s.ticketOf, s.calls[d]);
    }
  }

  lemma TakeKeeps(s: State, c: nat)
    requires Inv(s) && c in s.calls && s.calls[c].DeleteChecked?
    ensures Inv(ApplyTake(s, c))
  {
    hide Jobs.Apply, Jobs.Without, TableInv, IdsInv, JobsInv, PhasesInv, CachesInv, ProbesInv, CallsInv, CreatorsInv, DeletersInv, OwnersInv, FenceInv, StopInv, Jobs.PoolInv;
    var id := s.calls[c].id;
    var q := Jobs.Apply(s.pool, Jobs.TakeQueued(id));
    var call := ApplyTake(s, c).calls[c];
    TakeFacts(s.pool, id);
    TakeJobsInv(s.pool, q, s.ticketOf, id);
    TakeOwners(s, q, c, call);
    TakeDeleters(s, q.queue, c, call);
    FreeCreatorOk(s.rows, s.issued, s.ticketOf, call);
    MoveCalls(s, c, call);
    LifecycleWork.StopPoolKept(s, q);
    LifecycleWork.FenceKept(s, q);
  }

  lemma MoveCalls(s: State, c: nat, call: Call)
    requires CallsInv(s.calls, s.createLock, s.apiCount) && CreatorsInv(s.rows, s.issued, s.ticketOf, s.calls)
    requires c in s.calls && LockedCall(call) == LockedCall(s.calls[c]) && CreatorOk(s.rows, s.issued, s.ticketOf, call)
    ensures CallsInv(s.calls[c := call], s.createLock, s.apiCount)
    ensures CreatorsInv(s.rows, s.issued, s.ticketOf, s.calls[c := call])
  {
    hide CreatorOk;
    assert s.calls[c := call].Keys == s.calls.Keys;
    assert |s.calls[c := call]| == |s.calls|;
  }

  /** Firing a cancel function touches no part of the invariant. */
  lemma CancelKeeps(s: State, cancelled: set<nat>, root: bool)
    requires Inv(s)
    ensures Inv(s.(pool := s.pool.(cancelled := cancelled, rootCancelled := root)))
  {
    hide TableInv, IdsInv, JobsInv, PhasesInv, CachesInv, ProbesInv, CallsInv, CreatorsInv, DeletersInv, OwnersInv, FenceInv, StopInv, Jobs.PoolInv;
    var q := s.pool.(cancelled := cancelled, rootCancelled := root);
    CancelPool(s.pool, cancelled, root);
    CancelOwners(s, q);
    CancelJobs(s.pool, q, s.ticketOf);
    LifecycleWork.StopPoolKept(s, q);
  }

  lemma CancelJobs(p: Jobs.Pool, q: Jobs.Pool, ticketOf: map<Id, nat>)
    requires JobsInv(p, ticketOf) && q.queue == p.queue && q.workers == p.workers && q.nextTicket == p.nextTicket
    ensures JobsInv(q, ticketOf)
  {}

  lemma CancelOwners(s: State, q: Jobs.Pool)
    requires OwnersInv(s.rows, s.repoClosed, s.pool, s.installs, s.calls, s.ticketOf)
    requires q.queue == s.pool.queue && q.workers == s.pool.workers && q.dropped == s.pool.dropped
    ensures OwnersInv(s.rows, s.repoClosed, q, s.installs, s.calls, s.ticketOf)
  {
    assert forall id :: Owned(s.pool, s.installs, s.calls, s.ticketOf, id) ==> Owned(q, s.installs, s.calls, s.ticketOf, id);
  }

  lemma CancelPool(p: Jobs.Pool, cancelled: set<nat>, root: bool)
    requires Jobs.PoolInv(p)
    ensures Jobs.PoolInv(p.(cancelled := cancelled, rootCancelled := root))
  {
    var q := p.(cancelled := cancelled, rootCancelled := root);
    hide Jobs.CountsMatch, Jobs.Settled, Jobs.Ordered;
    Jobs.CountsFrame(p, q);
    Jobs.SettledFrame(p, q);
    Jobs.OrderFrame(p, q);
    assert Jobs.Alive(q) == Jobs.Alive(p);
  }

  lemma FireKeeps(s: State, c: nat)
    requires Inv(s) && c in s.calls && s.calls[c].DeleteTaken?
    ensures Inv(ApplyFire(s, c))
  {
    var d := s.calls[c];
    var call := DeleteWaiting(d.id, d.known);
    CallParts(s, c);
    hide Inv, TableInv, Coherent;
    FiredOk(s.rows, s.issued, s.pool.queue, s.ticketOf, d);
    hide DeleterOk, CreatorOk;
    MoveKeeps(s, c, call);
    var m := s.(calls := s.calls[c := call]);
    var q := CancelIf(s.pool, d.cancel);
    assert q == m.pool.(cancelled := q.cancelled, rootCancelled := m.pool.rootCancelled);
    CancelKeeps(m, q.cancelled, m.pool.rootCancelled);
  }

  lemma FiredOk(t: Table, issued: set<Id>, queue: seq<Jobs.Job>, ticketOf: map<Id, nat>, d: Call)
    requires d.DeleteTaken? && DeleterOk(queue, ticketOf, d)
    ensures var call := DeleteWaiting(d.id, d.known);
      && DeleterOk(queue, ticketOf, call) && CreatorOk(t, issued, ticketOf, call) && LockedCall(call) == LockedCall(d)
      && forall id :: Creates(call, id) == Creates(d, id) && Deletes(call, id) == Deletes(d, id)
  {}

  /** Past the wait, a job submitted before the take has finished or was dropped. */
  lemma IdleMeansSettled(p: Jobs.Pool, ticketOf: map<Id, nat>, id: Id)
    requires Jobs.PoolInv(p) && JobsInv(p, ticketOf)
    requires id in ticketOf && id !in p.installRunning
    requires forall i :: 0 <= i < |p.queue| ==> p.queue[i].id != id
    ensures ticketOf[id] in p.finished || ticketOf[id] in p.dropped
  {
    var t := ticketOf[id];
    hide Jobs.Ordered, Jobs.PoolCounted;
    assert Jobs.Queued(p, t) || Jobs.Underway(p, t) || t in p.finished || t in p.dropped;
    forall i | 0 <= i < |p.queue| ensures p.queue[i].ticket != t {
      assert Ticketed(p.queue[i], ticketOf);
    }
    forall w | w in p.workers && p.workers[w].Running? ensures p.workers[w].job.ticket != t {
      assert Ticketed(p.workers[w].job, ticketOf);
      assert w !in Jobs.Holders(p, id);
    }
  }

  lemma PassKeeps(s: State, c: nat)
    requires Inv(s) && DeleteEnabled(s, PassIdle(c))
    ensures Inv(ApplyPass(s, c))
  {
    hide TableInv, IdsInv, JobsInv, PhasesInv, CachesInv, ProbesInv, CallsInv, CreatorsInv, DeletersInv, OwnersInv, FenceInv, StopInv, Jobs.PoolInv;
    var d := s.calls[c];
    CallParts(s, c);
    if d.known { IdleMeansSettled(s.pool, s.ticketOf, d.id); }
    var fenced := if d.known then s.fenced + {d.id} else s.fenced;
    assert FenceInv(fenced, s.ticketOf, s.pool.finished, s.pool.dropped) by { FenceAdds(s, d.id, d.known); }
    var m := s.(fenced := fenced);
    assert Inv(m);
    hide Inv;
    MoveKeeps(m, c, DeleteIdle(d.id));
  }

  lemma FenceAdds(s: State, id: Id, known: bool)
    requires FenceInv(s.fenced, s.ticketOf, s.pool.finished, s.pool.dropped)
    requires known ==> id in s.ticketOf && (s.ticketOf[id] in s.pool.finished || s.ticketOf[id] in s.pool.dropped)
    ensures FenceInv(if known then s.fenced + {id} else s.fenced, s.ticketOf, s.pool.finished, s.pool.dropped)
  {}

  /** A wait can only be given up while a worker holds the id, and then this delete did not drop its job. */
  lemma RunningNotDropped(p: Jobs.Pool, ticketOf: map<Id, nat>, id: Id)
    requires Jobs.PoolInv(p) && JobsInv(p, ticketOf) && id in p.installRunning
    ensures !DroppedJob(p, ticketOf, id)
  {
    assert Jobs.Holders(p, id) != {};
    var w :| w in Jobs.Holders(p, id);
    assert Ticketed(p.workers[w].job, ticketOf);
    assert p.workers[w].job.ticket !in p.dropped;
  }

  lemma GiveUpLeaves(s: State, c: nat)
    requires OwnersInv(s.rows, s.repoClosed, s.pool, s.installs, s.calls, s.ticketOf)
    requires c in s.calls && s.calls[c].DeleteWaiting? && !DroppedJob(s.pool, s.ticketOf, s.calls[c].id)
    ensures Leaves(s, c, s.rows)
  {
    var id := s.calls[c].id;
    if !s.repoClosed && id in s.rows && s.rows[id].status == Init {
      assert Owned(s.pool, s.installs, s.calls, s.ticketOf, id);
      if d :| d in s.calls && Creates(s.calls[d], id) {
        assert d in s.calls - {c} && Creates((s.calls - {c})[d], id);
      }
      assert Owned(s.pool, s.installs, s.calls - {c}, s.ticketOf, id);
    }
  }

  lemma GiveUpKeeps(s: State, c: nat)
    requires Inv(s) && DeleteEnabled(s, GiveUpWait(c))
    ensures Inv(DropCall(s, c))
  {
    RunningNotDropped(s.pool, s.ticketOf, s.calls[c].id);
    GiveUpLeaves(s, c);
    SameNarrows(s.rows);
    hide Inv, Leaves, NarrowsSafely;
    assert s.(rows := s.rows) == s;
    DropKeeps(s, c, s.rows);
  }

  /** A delete that finds no row has nothing in init to leave behind. */
  lemma LookUpKeeps(s: State, c: nat)
    requires Inv(s) && c in s.calls && s.calls[c].DeleteIdle?
    ensures Inv(ApplyDelete(s, LookUp(c)))
  {
    hide Inv;
    var id := s.calls[c].id;
    var next := if s.repoClosed || id !in s.rows then None else Some(DeleteTearing(id));
    assert ApplyDelete(s, LookUp(c)) == Proceed(s, c, next) by { hide Proceed; }
    assert next.None? ==> Leaves(s, c, s.rows);
    hide Leaves, Proceed, ApplyDelete, Owned;
    ProceedKeeps(s, c, next);
  }

  lemma CheckKeeps(s: State, c: nat)
    requires Inv(s) && c in s.calls && s.calls[c].DeleteBegun?
    ensures Inv(ApplyDelete(s, CheckOpen(c)))
  {
    hide Inv;
    var next := if s.pool.stopped then None else Some(DeleteChecked(s.calls[c].id));
    assert ApplyDelete(s, CheckOpen(c)) == Proceed(s, c, next) by { hide Proceed; }
    assert next.None? ==> Leaves(s, c, s.rows);
    hide Leaves, Proceed, ApplyDelete, Owned;
    ProceedKeeps(s, c, next);
  }

  lemma DeleteKeeps(s: State, t: DeleteStep)
    requires Inv(s) && DeleteEnabled(s, t)
    ensures Inv(ApplyDelete(s, t))
  {
    match t
    case BeginDelete(c, id) => hide Inv; BeginKeeps(s, c, DeleteBegun(id));
    case CheckOpen(c) => hide Inv, ApplyDelete; CheckKeeps(s, c);
    case TakeJobs(c) => hide Inv, ApplyTake; TakeKeeps(s, c);
    case FireCancel(c) => hide Inv, ApplyFire; FireKeeps(s, c);
    case PassIdle(c) => hide Inv, ApplyPass; PassKeeps(s, c);
    case GiveUpWait(c) => hide Inv, DropCall; GiveUpKeeps(s, c);
    case LookUp(c) => hide Inv, ApplyDelete; LookUpKeeps(s, c);
    case RemoveRow(c) => hide Inv, ApplyRemove; RemoveKeeps(s, c, s.calls[c].id);
  }
}
