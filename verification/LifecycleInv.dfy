/**
 The invariant of the lifecycle state machine, in parts that each look at the few components they need, and
 the proof that every step keeps every part.
 */
module LifecycleInv {
  import opened Common
  import opened Keys
  import opened Workspaces
  import opened Paging
  import opened Lifecycle
  import Jobs = InstallPool

  // ----- the parts -----

  ghost predicate StatusAgrees(r: Row) {
    !r.status.Other? && (r.error.Some? <==> r.status == Failed)
  }

  ghost predicate DirsDistinct(t: Table) {
    forall a, b :: a in t && b in t && DirOf(t[a]).Some? && DirOf(t[a]) == DirOf(t[b]) ==> a == b
  }

  ghost predicate TableInv(t: Table) {
    && WellFormed(t)
    && DirsDistinct(t)
    && forall id :: id in t ==> StatusAgrees(t[id])
  }

  ghost predicate IdsInv(t: Table, issued: set<Id>, ticketOf: map<Id, nat>) {
    t.Keys <= issued && ticketOf.Keys <= issued
  }

  /** One ticket per submitted id, and every job in the pool is that ticket. */
  ghost predicate JobsInv(pool: Jobs.Pool, ticketOf: map<Id, nat>) {
    && (forall id :: id in ticketOf ==> ticketOf[id] < pool.nextTicket)
    && (forall a, b :: a in ticketOf && b in ticketOf && ticketOf[a] == ticketOf[b] ==> a == b)
    && (forall i :: 0 <= i < |pool.queue| ==> Ticketed(pool.queue[i], ticketOf))
    && (forall w :: w in pool.workers && pool.workers[w].Running? ==> Ticketed(pool.workers[w].job, ticketOf))
  }

  ghost predicate Ticketed(j: Jobs.Job, ticketOf: map<Id, nat>) {
    j.id in ticketOf && ticketOf[j.id] == j.ticket
  }

  ghost predicate PhasesInv(workers: map<nat, Jobs.Worker>, installs: map<nat, Phase>) {
    && (forall w :: w in installs <==> w in workers && workers[w].Running?)
    && (forall w :: w in installs && installs[w].Updating? ==>
          && installs[w].latest.id == workers[w].job.id
          && installs[w].latest.status == Init && StatusAgrees(installs[w].latest))
  }

  /** A row read earlier still agrees with the stored one on everything a later whole-row write must not change. */
  ghost predicate CacheOk(t: Table, issued: set<Id>, r: Row) {
    r.id in issued && (r.id in t ==> SameFixed(t[r.id], r))
  }

  ghost predicate SameFixed(a: Row, b: Row) {
    a.id == b.id && SameImmutable(a, b) && a.rawDir == b.rawDir && a.createdAt == b.createdAt
  }

  ghost predicate CachesInv(t: Table, issued: set<Id>, installs: map<nat, Phase>, probes: map<nat, Probe>) {
    && (forall w :: w in installs && installs[w].Updating? ==> CacheOk(t, issued, installs[w].latest))
    && (forall p :: p in probes && probes[p].Writing? ==> CacheOk(t, issued, probes[p].updated))
  }

  ghost predicate ProbesInv(sched: Scheduler, probes: map<nat, Probe>) {
    && (sched.SchedListing? ==> Paging.ValidCursor(sched.cursor))
    && (forall p :: p in probes && probes[p].Recording? ==> Reported(probes[p].next, probes[p].error))
    && (forall p :: p in probes && probes[p].Writing? ==> StatusAgrees(probes[p].updated) && probes[p].updated.status != Init)
    && (sched.SchedOff? || sched.SchedExited? ==> probes == map[])
    && (!sched.SchedProbing? ==> probes == map[])
  }

  ghost predicate LockedCall(call: Call) {
    call.CreateScanning? || call.CreateReady? || call.CreateInserted? || call.CreateRejected?
  }

  ghost predicate CallsInv(calls: map<nat, Call>, lock: Option<nat>, apiCount: nat) {
    && apiCount == |calls|
    && (forall c :: c in calls && LockedCall(calls[c]) <==> lock == Some(c))
  }

  /** The scanned part of the table holds no row with the wanted directory. */
  ghost predicate NoDirBefore(t: Table, want: Option<string>, cursor: string) {
    && want.Some?
    && Paging.ValidCursor(cursor)
    && forall id :: id in t && DirOf(t[id]) == want ==> Selected(t, ScanFilter, AfterOf(cursor), t[id])
  }

  ghost predicate NoDir(t: Table, want: Option<string>) {
    want.Some? ==> forall id :: id in t ==> DirOf(t[id]) != want
  }

  ghost predicate CreatorOk(t: Table, issued: set<Id>, ticketOf: map<Id, nat>, call: Call) {
    match call
    case CreateScanning(req, cursor) => ValidNamespace(req.key.ns) && NoDirBefore(t, WantDir(req), cursor)
    case CreateReady(req) => ValidNamespace(req.key.ns) && NoDir(t, WantDir(req))
    case CreateInserted(id) => id in issued && id !in ticketOf
    case CreateRejected(id) => id in issued && id !in ticketOf
    case _ => true
  }

  ghost predicate CreatorsInv(t: Table, issued: set<Id>, ticketOf: map<Id, nat>, calls: map<nat, Call>) {
    forall c :: c in calls ==> CreatorOk(t, issued, ticketOf, calls[c])
  }

  /** A delete that saw its id submitted has left none of its jobs in the queue. */
  ghost predicate DeleterOk(queue: seq<Jobs.Job>, ticketOf: map<Id, nat>, call: Call) {
    (call.DeleteTaken? || call.DeleteWaiting?) && call.known ==>
      call.id in ticketOf && forall i :: 0 <= i < |queue| ==> queue[i].id != call.id
  }

  ghost predicate DeletersInv(queue: seq<Jobs.Job>, ticketOf: map<Id, nat>, calls: map<nat, Call>) {
    forall c :: c in calls ==> DeleterOk(queue, ticketOf, calls[c])
  }

  // Who will still move a row out of init.

  ghost predicate Creates(call: Call, id: Id) {
    (call.CreateInserted? || call.CreateRejected?) && call.id == id
  }

  ghost predicate Deletes(call: Call, id: Id) {
    (call.DeleteTaken? || call.DeleteWaiting? || call.DeleteIdle? || call.DeleteTearing?) && call.id == id
  }

  ghost predicate Drives(ph: Phase) { !ph.Cleaning? && !ph.Finishing? }

  ghost predicate QueuedFor(queue: seq<Jobs.Job>, id: Id) { exists i :: 0 <= i < |queue| && queue[i].id == id }

  ghost predicate DrivenBy(workers: map<nat, Jobs.Worker>, installs: map<nat, Phase>, w: nat, id: Id) {
    w in installs && w in workers && workers[w].Running? && workers[w].job.id == id && Drives(installs[w])
  }

  ghost predicate DroppedJob(pool: Jobs.Pool, ticketOf: map<Id, nat>, id: Id) {
    id in ticketOf && ticketOf[id] in pool.dropped
  }

  ghost predicate Owned(pool: Jobs.Pool, installs: map<nat, Phase>, calls: map<nat, Call>, ticketOf: map<Id, nat>, id: Id) {
    || (exists c :: c in calls && Creates(calls[c], id))
    || QueuedFor(pool.queue, id)
    || (exists w :: DrivenBy(pool.workers, installs, w, id))
    || (DroppedJob(pool, ticketOf, id) && exists c :: c in calls && Deletes(calls[c], id))
  }

  /** While the repository is open, every row in init has somebody bound to move it on. */
  ghost predicate OwnersInv(t: Table, closed: bool, pool: Jobs.Pool, installs: map<nat, Phase>, calls: map<nat, Call>, ticketOf: map<Id, nat>) {
    !closed ==> forall id :: id in t && t[id].status == Init ==> Owned(pool, installs, calls, ticketOf, id)
  }

  ghost predicate FenceInv(fenced: set<Id>, ticketOf: map<Id, nat>, finished: set<nat>, dropped: set<nat>) {
    forall id :: id in fenced ==> id in ticketOf && (ticketOf[id] in finished || ticketOf[id] in dropped)
  }

  ghost predicate NoInit(t: Table) { forall id :: id in t ==> t[id].status != Init }

  // What each stage of Stop has established.

  ghost predicate PastScheduler(st: Stopper) {
    st.PoolStop? || PastPoolStop(st)
  }

  ghost predicate PastPoolStop(st: Stopper) {
    st.PoolCancel? || st.PoolWait? || PastPoolWait(st)
  }

  ghost predicate PastPoolWait(st: Stopper) {
    st.ApiWait? || PastApiWait(st)
  }

  ghost predicate PastApiWait(st: Stopper) {
    st.Closing? || PastClose(st)
  }

  ghost predicate PastClose(st: Stopper) { st.Ending? || st.Ended? }

  ghost predicate Clean(st: Stopper) {
    match st
    case NoStop => true
    case StopFlagged => true
    case SchedWait => true
    case Ended(ok) => ok
    case _ => !st.bad
  }

  ghost predicate PoolDrained(pool: Jobs.Pool) {
    pool.stopped && (!pool.started || pool.doneCloses > 0)
  }

  ghost predicate SchedGone(sched: Scheduler, schedStopped: bool) {
    schedStopped && (sched.SchedOff? || sched.SchedExited?)
  }

  ghost predicate StopInv(st: Stopper, closed: bool, t: Table, pool: Jobs.Pool, sched: Scheduler, schedStopped: bool, apiCount: nat) {
    && (closed <==> PastClose(st))
    && (st.SchedWait? || PastScheduler(st) ==> schedStopped)
    && (PastPoolStop(st) ==> pool.stopped)
    && (PastScheduler(st) && Clean(st) ==> SchedGone(sched, schedStopped))
    && (PastPoolWait(st) && Clean(st) ==> PoolDrained(pool))
    && (PastApiWait(st) && Clean(st) ==> apiCount == 0)
    && (PastClose(st) && Clean(st) ==> NoInit(t))
  }

  ghost predicate Inv(s: State) {
    && TableInv(s.rows)
    && IdsInv(s.rows, s.issued, s.ticketOf)
    && Jobs.PoolInv(s.pool)
    && JobsInv(s.pool, s.ticketOf)
    && PhasesInv(s.pool.workers, s.installs)
    && CachesInv(s.rows, s.issued, s.installs, s.probes)
    && ProbesInv(s.sched, s.probes)
    && CallsInv(s.calls, s.createLock, s.apiCount)
    && CreatorsInv(s.rows, s.issued, s.ticketOf, s.calls)
    && DeletersInv(s.pool.queue, s.ticketOf, s.calls)
    && OwnersInv(s.rows, s.repoClosed, s.pool, s.installs, s.calls, s.ticketOf)
    && FenceInv(s.fenced, s.ticketOf, s.pool.finished, s.pool.dropped)
    && StopInv(s.stop, s.repoClosed, s.rows, s.pool, s.sched, s.schedStopped, s.apiCount)
  }

  lemma InitialInv(installTimeout: int)
    ensures Inv(Initial(installTimeout))
  {
    hide Jobs.PoolInv, Paging.ValidCursor, StatusAgrees, SameFixed, NoDir, NoDirBefore;
    Jobs.NewPoolInv();
  }

  // ----- writes to the table -----

  /** What every write but an insert does: rows may go, the others keep their fixed fields, and none enters init. */
  ghost predicate Narrows(t: Table, t': Table) {
    forall id :: id in t' ==> id in t && SameFixed(t'[id], t[id]) && (t'[id].status == Init ==> t[id].status == Init)
  }

  ghost predicate NarrowsSafely(t: Table, t': Table) {
    Narrows(t, t') && forall id :: id in t' ==> StatusAgrees(t'[id])
  }

  lemma NarrowsTable(t: Table, t': Table)
    requires TableInv(t) && NarrowsSafely(t, t')
    ensures TableInv(t')
  {}

  lemma NarrowsOwners(t: Table, t': Table, closed: bool, pool: Jobs.Pool, installs: map<nat, Phase>, calls: map<nat, Call>, ticketOf: map<Id, nat>)
    requires OwnersInv(t, closed, pool, installs, calls, ticketOf) && Narrows(t, t')
    ensures OwnersInv(t', closed, pool, installs, calls, ticketOf)
  {}

  lemma NarrowsRest(t: Table, t': Table, issued: set<Id>, ticketOf: map<Id, nat>, installs: map<nat, Phase>, probes: map<nat, Probe>, calls: map<nat, Call>)
    requires TableInv(t) && Narrows(t, t')
    requires IdsInv(t, issued, ticketOf) && CachesInv(t, issued, installs, probes) && CreatorsInv(t, issued, ticketOf, calls)
    ensures IdsInv(t', issued, ticketOf) && CachesInv(t', issued, installs, probes) && CreatorsInv(t', issued, ticketOf, calls)
  {
    assert CachesInv(t', issued, installs, probes) by {
      hide SameImmutable;
      assert forall r :: CacheOk(t, issued, r) ==> CacheOk(t', issued, r);
    }
    forall c | c in calls ensures CreatorOk(t', issued, ticketOf, calls[c]) {
      NarrowsCreator(t, t', issued, ticketOf, calls[c]);
    }
  }

  lemma NarrowsCreator(t: Table, t': Table, issued: set<Id>, ticketOf: map<Id, nat>, call: Call)
    requires Narrows(t, t') && IdsMatch(t) && CreatorOk(t, issued, ticketOf, call)
    ensures CreatorOk(t', issued, ticketOf, call)
  {
    hide ValidNamespace, Less, AfterOf, Paging.ValidCursor;
    if call.CreateScanning? {
      var want := WantDir(call.req);
      forall id | id in t' && DirOf(t'[id]) == want ensures Selected(t', ScanFilter, AfterOf(call.cursor), t'[id]) {
        assert Selected(t, ScanFilter, AfterOf(call.cursor), t[id]);
      }
    }
  }

  lemma CasNarrows(t: Table, id: Id, w: Writer, expected: Status, next: Status, error: Option<Failure>, at: int)
    requires TableInv(t) && Reported(next, error)
    ensures var r := CompareAndSet(t, id, w, expected, next, error, at);
      r.Ok? ==> NarrowsSafely(t, r.value) && r.value.Keys == t.Keys
  {}

  lemma UpdateNarrows(t: Table, issued: set<Id>, r: Row)
    requires TableInv(t) && CacheOk(t, issued, r) && StatusAgrees(r)
    ensures var w := UpdateRow(t, r);
      w.Ok? ==> NarrowsSafely(t, w.value) && w.value.Keys == t.Keys
  {}

  lemma DeleteNarrows(t: Table, id: Id)
    requires TableInv(t)
    ensures var w := DeleteRow(t, id);
      w.Ok? ==> NarrowsSafely(t, w.value) && id !in w.value
  {}

  lemma SameNarrows(t: Table)
    requires TableInv(t)
    ensures NarrowsSafely(t, t)
  {}

  /** The parts that only look at the table survive any such write. */
  lemma TablePartsKept(s: State, t': Table)
    requires Inv(s) && NarrowsSafely(s.rows, t')
    ensures TableInv(t')
    ensures IdsInv(t', s.issued, s.ticketOf)
    ensures CachesInv(t', s.issued, s.installs, s.probes)
    ensures CreatorsInv(t', s.issued, s.ticketOf, s.calls)
    ensures OwnersInv(t', s.repoClosed, s.pool, s.installs, s.calls, s.ticketOf)
    ensures PastClose(s.stop) && Clean(s.stop) ==> NoInit(t')
  {
    hide TableInv, IdsInv, CachesInv, CreatorsInv, OwnersInv;
    NarrowsTable(s.rows, t');
    NarrowsOwners(s.rows, t', s.repoClosed, s.pool, s.installs, s.calls, s.ticketOf);
    NarrowsRest(s.rows, t', s.issued, s.ticketOf, s.installs, s.probes, s.calls);
  }
}
