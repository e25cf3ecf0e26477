/** Scheduler steps keep the lifecycle invariant. */
module LifecycleSched {
  import opened Common
  import opened Workspaces
  import opened Paging
  import opened Lifecycle
  import opened LifecycleInv
  import Jobs = InstallPool

  lemma StopKept(s: State, t': Table, sched': Scheduler)
    requires StopInv(s.stop, s.repoClosed, s.rows, s.pool, s.sched, s.schedStopped, s.apiCount)
    requires PastClose(s.stop) && Clean(s.stop) ==> NoInit(t')
    requires sched' == s.sched || (!s.sched.SchedOff? && !s.sched.SchedExited?)
    ensures StopInv(s.stop, s.repoClosed, t', s.pool, sched', s.schedStopped, s.apiCount)
  {}

  /** A change of the table alone, by an update the table parts survive, keeps everything. */
  lemma RowsChangeKeeps(s: State, t': Table, sched': Scheduler, probes': map<nat, Probe>)
    requires Inv(s) && NarrowsSafely(s.rows, t')
    requires CachesInv(s.rows, s.issued, s.installs, probes')
    requires ProbesInv(sched', probes')
    requires sched' == s.sched || (!s.sched.SchedOff? && !s.sched.SchedExited?)
    ensures Inv(s.(rows := t', sched := sched', probes := probes'))
  {
    assert Narrows(s.rows, t');
    hide TableInv, IdsInv, JobsInv, PhasesInv, CachesInv, ProbesInv, CallsInv, CreatorsInv, DeletersInv, OwnersInv, FenceInv, StopInv;
    hide Jobs.PoolInv, NarrowsSafely, Narrows;
    TablePartsKept(s, t');
    NarrowsRest(s.rows, t', s.issued, s.ticketOf, s.installs, probes', s.calls);
    StopKept(s, t', sched');
  }

  lemma Parts(s: State)
    requires Inv(s)
    ensures TableInv(s.rows) && Coherent(s.rows) && WellFormed(s.rows)
    ensures CachesInv(s.rows, s.issued, s.installs, s.probes)
    ensures ProbesInv(s.sched, s.probes)
    ensures IdsInv(s.rows, s.issued, s.ticketOf)
  {}

  lemma JudgeKeeps(s: State)
    requires Inv(s) && s.sched.SchedJudging? && s.sched.rest != []
    ensures Inv(ApplyJudge(s))
  {
    Parts(s);
    JudgedRowsNarrow(s);
    hide Inv, TableInv, CachesInv, NarrowsSafely, JudgedRows;
    RowsChangeKeeps(s, JudgedRows(s), JudgedSched(s.sched), s.probes);
  }

  lemma JudgedRowsNarrow(s: State)
    requires TableInv(s.rows) && s.sched.SchedJudging? && s.sched.rest != []
    ensures NarrowsSafely(s.rows, JudgedRows(s))
  {
    CasNarrows(s.rows, s.sched.rest[0].id, ByScheduler, Init, Failed, Some(TIMEOUT), 0);
    SameNarrows(s.rows);
    hide TableInv, NarrowsSafely, CompareAndSet;
  }

  lemma RecordedRowsNarrow(s: State, r: Probe)
    requires TableInv(s.rows) && r.Recording? && Reported(r.next, r.error)
    ensures NarrowsSafely(s.rows, RecordedRows(s, r))
  {
    CasNarrows(s.rows, r.row.id, ByScheduler, r.row.status, r.next, r.error, r.probedAt);
    SameNarrows(s.rows);
    hide TableInv, NarrowsSafely, CompareAndSet;
  }

  lemma RecordedProbesOk(s: State, p: nat)
    requires TableInv(s.rows) && IdsInv(s.rows, s.issued, s.ticketOf) && p in s.probes && s.probes[p].Recording?
    requires CachesInv(s.rows, s.issued, s.installs, s.probes) && ProbesInv(s.sched, s.probes)
    ensures CachesInv(s.rows, s.issued, s.installs, RecordedProbes(s, p))
    ensures ProbesInv(s.sched, RecordedProbes(s, p))
  {}

  lemma RecordKeeps(s: State, p: nat)
    requires Inv(s) && p in s.probes && s.probes[p].Recording?
    ensures Inv(ApplyRecord(s, p))
  {
    Parts(s);
    RecordedRowsNarrow(s, s.probes[p]);
    RecordedProbesOk(s, p);
    hide Inv, TableInv, CachesInv, ProbesInv, NarrowsSafely, RecordedRows, RecordedProbes;
    RowsChangeKeeps(s, RecordedRows(s, s.probes[p]), s.sched, RecordedProbes(s, p));
  }

  lemma WrittenNarrow(s: State, p: nat)
    requires TableInv(s.rows) && CachesInv(s.rows, s.issued, s.installs, s.probes) && ProbesInv(s.sched, s.probes)
    requires p in s.probes && s.probes[p].Writing?
    ensures NarrowsSafely(s.rows, RowsAfter(s, UpdateRow(s.rows, s.probes[p].updated)))
  {
    UpdateNarrows(s.rows, s.issued, s.probes[p].updated);
    SameNarrows(s.rows);
    hide TableInv, NarrowsSafely, UpdateRow;
  }

  lemma WriteProbeKeeps(s: State, p: nat)
    requires Inv(s) && SchedEnabled(s, WriteProbe(p))
    ensures Inv(s.(rows := RowsAfter(s, UpdateRow(s.rows, s.probes[p].updated)), probes := s.probes - {p}))
  {
    Parts(s);
    WrittenNarrow(s, p);
    hide Inv, TableInv, NarrowsSafely, UpdateRow, RowsAfter;
    RowsChangeKeeps(s, RowsAfter(s, UpdateRow(s.rows, s.probes[p].updated)), s.sched, s.probes - {p});
  }

  /** Steps that only move the scheduler along. */
  lemma QuietKeeps(s: State, t: SchedStep)
    requires Inv(s) && SchedEnabled(s, t) && !t.Judge? && !t.Record? && !t.WriteProbe? && !t.ListNextPage?
    ensures Inv(ApplySched(s, t))
  {
    hide TableInv, IdsInv, JobsInv, PhasesInv, CallsInv, CreatorsInv, DeletersInv, OwnersInv, FenceInv;
    hide Jobs.PoolInv;
  }

  lemma ListedOk(s: State, now: int)
    requires TableInv(s.rows) && ProbesInv(s.sched, s.probes) && s.sched.SchedListing?
    ensures ProbesInv(ListedSched(s, now), s.probes)
  {
    hide TableInv, ListPage, Paging.ValidCursor;
    assert WellFormed(s.rows) by { Wf(s.rows); }
    PageCovers(s.rows, EVERYTHING, LIST_PAGE, s.sched.cursor);
  }

  lemma Wf(t: Table)
    requires TableInv(t)
    ensures WellFormed(t)
  {}

  lemma ListKeeps(s: State, now: int)
    requires Inv(s) && s.sched.SchedListing?
    ensures Inv(s.(sched := ListedSched(s, now)))
  {
    Parts(s);
    ListedOk(s, now);
    SameNarrows(s.rows);
    hide Inv, TableInv, CachesInv, ProbesInv, NarrowsSafely, ListedSched;
    RowsChangeKeeps(s, s.rows, ListedSched(s, now), s.probes);
  }

  lemma SchedKeeps(s: State, t: SchedStep)
    requires Inv(s) && SchedEnabled(s, t)
    ensures Inv(ApplySched(s, t))
  {
    hide Inv;
    hide ListedSched, ApplyJudge, ApplyRecord;
    match t
    case Judge => JudgeKeeps(s);
    case Record(p) => RecordKeeps(s, p);
    case WriteProbe(p) => WriteProbeKeeps(s, p);
    case ListNextPage(now) => ListKeeps(s, now);
    case _ => QuietKeeps(s, t);
  }
}
