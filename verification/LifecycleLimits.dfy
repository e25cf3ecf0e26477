/** Where the delete fence ends: a run in which a delete that came before the submit fences nothing. */
module LifecycleLimits {
  import opened Common
  import opened Keys
  import opened Paging
  import opened Lifecycle
  import opened LifecycleTheorems
  import Jobs = InstallPool

  const REQ := Request(Key([97], [98]), "claude-code", "container", None, map[])
  const ROW := NewRow(REQ, "w", [], 0)
  const STARTED := Jobs.NewPool().(started := true, workers := map[0 := Jobs.Waiting], workersRemaining := 1)
  const OPENED := Initial(0).(pool := STARTED, starts := map[0 := StartHalf])
  const INSERTED := OPENED.(rows := map["w" := ROW], issued := {"w"}, createLock := Some(0))
  const ACCEPTED := STARTED.(queue := [Jobs.Job("w", 0)], nextTicket := 1)
  const SUBMITTED := INSERTED.(pool := ACCEPTED, ticketOf := map["w" := 0], createLock := None, apiCount := 1, calls := map[1 := DeleteIdle("w")])
  const RUNNING := ACCEPTED.(queue := [], installCancel := map["w" := 0], installRunning := map["w" := 1], nextToken := 1,
    workers := map[0 := Jobs.Running(Jobs.Job("w", 0), 0)])

  /** A create has inserted its row and not submitted it yet, while a delete stands at d. */
  function Overlap(d: Call): State {
    INSERTED.(calls := map[0 := CreateInserted("w"), 1 := d], apiCount := 2)
  }

  const LAPSE_STEPS := [
    Opening(StartCheck(0)), Opening(StartPool(0, 1)),
    Creating(BeginCreate(0, REQ)), Creating(LockCreate(0)), Creating(Insert(0, "w", [], 0)),
    Deleting(BeginDelete(1, "w")), Deleting(CheckOpen(1)), Deleting(TakeJobs(1)), Deleting(FireCancel(1)), Deleting(PassIdle(1)),
    Creating(SubmitJob(0)), Installing(DequeueJob(0))]

  const CHECKED := Initial(0).(starts := map[0 := StartChecked])
  const BEGUN := OPENED.(calls := map[0 := CreateBegun(REQ)], apiCount := 1)
  const READY := OPENED.(calls := map[0 := CreateReady(REQ)], apiCount := 1, createLock := Some(0))
  const WRITTEN := INSERTED.(calls := map[0 := CreateInserted("w")], apiCount := 1)
  const BUSY := SUBMITTED.(pool := RUNNING, installs := map[0 := Starting])

  const LAPSE := [
    Initial(0), CHECKED, OPENED, BEGUN, READY, WRITTEN,
    Overlap(DeleteBegun("w")), Overlap(DeleteChecked("w")), Overlap(DeleteTaken("w", false, None)),
    Overlap(DeleteWaiting("w", false)), Overlap(DeleteIdle("w")), SUBMITTED, BUSY]

  lemma LapseStarts()
    ensures Steps(Initial(0), Opening(StartCheck(0)), CHECKED)
    ensures Steps(CHECKED, Opening(StartPool(0, 1)), OPENED)
  {
    assert Jobs.Crew(1) == map[0 := Jobs.Waiting];
  }

  lemma LapseBegins()
    ensures Steps(OPENED, Creating(BeginCreate(0, REQ)), BEGUN)
    ensures Steps(BEGUN, Creating(LockCreate(0)), READY)
  {
    hide ListPage;
  }

  lemma LapseInserts()
    ensures Steps(READY, Creating(Insert(0, "w", [], 0)), WRITTEN)
  {
    hide ListPage;
  }

  lemma LapseDeletes()
    ensures Steps(WRITTEN, Deleting(BeginDelete(1, "w")), Overlap(DeleteBegun("w")))
    ensures Steps(Overlap(DeleteBegun("w")), Deleting(CheckOpen(1)), Overlap(DeleteChecked("w")))
  {
    hide WorkEnabled, ApplyWork, SchedEnabled, ApplySched, StartEnabled, ApplyStart, StopEnabled, ApplyStop;
    hide CreateEnabled, ApplyCreate, ApplyTake, ApplyFire, ApplyPass, ApplyRemove;
  }

  lemma LapseTakes()
    ensures Steps(Overlap(DeleteChecked("w")), Deleting(TakeJobs(1)), Overlap(DeleteTaken("w", false, None)))
  {
    hide WorkEnabled, ApplyWork, SchedEnabled, ApplySched, StartEnabled, ApplyStart, StopEnabled, ApplyStop;
    hide CreateEnabled, ApplyCreate, Proceed, AddCall, DropCall, ApplyFire, ApplyPass, ApplyRemove;
  }

  lemma LapsePasses()
    ensures Steps(Overlap(DeleteTaken("w", false, None)), Deleting(FireCancel(1)), Overlap(DeleteWaiting("w", false)))
  {
    hide WorkEnabled, ApplyWork, SchedEnabled, ApplySched, StartEnabled, ApplyStart, StopEnabled, ApplyStop;
    hide CreateEnabled, ApplyCreate, Proceed, AddCall, DropCall, ApplyTake, ApplyPass, ApplyRemove;
  }

  lemma LapseFences()
    ensures Steps(Overlap(DeleteWaiting("w", false)), Deleting(PassIdle(1)), Overlap(DeleteIdle("w")))
  {
    hide WorkEnabled, ApplyWork, SchedEnabled, ApplySched, StartEnabled, ApplyStart, StopEnabled, ApplyStop;
    hide CreateEnabled, ApplyCreate, Proceed, AddCall, DropCall, ApplyTake, ApplyFire, ApplyRemove;
  }

  lemma LapseSubmits()
    ensures Steps(Overlap(DeleteIdle("w")), Creating(SubmitJob(0)), SUBMITTED)
  {
    hide WorkEnabled, ApplyWork, SchedEnabled, ApplySched, StartEnabled, ApplyStart, StopEnabled, ApplyStop;
    hide DeleteEnabled, ApplyDelete, Scanned, Proceed, AddCall, ApplyLock, ApplyInsert, ApplyRemove;
  }

  lemma LapseRuns()
    ensures Steps(SUBMITTED, Installing(DequeueJob(0)), BUSY)
  {
  }

  lemma LapseIsRun()
    ensures IsRun(0, LAPSE, LAPSE_STEPS)
  {
    hide Steps, Initial, Overlap;
    LapseStarts();
    LapseBegins();
    LapseInserts();
    LapseDeletes();
    LapseTakes();
    LapsePasses();
    LapseFences();
    LapseSubmits();
    LapseRuns();
  }

  /** The delete fence needs the submit to come first: here the delete is past its wait and a worker runs the install. */
  lemma FenceNeedsSubmit()
    ensures IsRun(0, LAPSE, LAPSE_STEPS)
    ensures LAPSE_STEPS[9] == Deleting(PassIdle(1)) && LAPSE[12].calls[1] == DeleteIdle("w")
    ensures Jobs.Holds(LAPSE[12].pool, 0, "w")
  {
    hide IsRun, Initial, Overlap;
    LapseIsRun();
  }
}
