/** The controller's mutex-held regions over its real fields: a queue slice in a shared array, and two maps. */
module Controller {
  import opened Common
  import opened Workspaces
  import opened InstallPool

  const NO_JOB := Job("", 0)

  /** The front job leaves the queue and enters both maps in the same region. */
  function Dequeued(c: Core): Core
    requires c.queue != []
  {
    var id := c.queue[0].id;
    c.(queue := c.queue[1..], installCancel := c.installCancel[id := c.nextToken], installRunning := CountUp(c.installRunning, id),
       nextToken := c.nextToken + 1)
  }

  lemma DequeueRefines(p: Pool, w: nat)
    requires Enabled(p, InstallPool.Dequeue(w))
    ensures CoreOf(Apply(p, InstallPool.Dequeue(w))) == Dequeued(CoreOf(p))
  {}

  class Controller {
    // The queue slice: buf[head..head + len].
    var buf: array<Job>
    var head: nat
    var len: nat
    var started: bool
    var stopped: bool
    var installRunning: map<Id, nat>
    var installCancel: map<Id, nat>
    var nextToken: nat
    // The install context's cancellation, the workers still there, and how often workersDone was closed.
    const installWorkers: nat
    var rootCancelled: bool
    var workersRemaining: nat
    var doneCloses: nat

    ghost predicate Valid()
      reads this
    {
      head + len <= buf.Length
    }

    ghost function Queue(): seq<Job>
      requires Valid()
      reads this, buf
    {
      buf[head..head + len]
    }

    ghost function View(): Core
      requires Valid()
      reads this, buf
    {
      Core(started, stopped, Queue(), installRunning, installCancel, nextToken, rootCancelled, workersRemaining, doneCloses)
    }

    constructor (installWorkers: nat)
      ensures Valid() && View() == CoreOf(NewPool()) && fresh(buf) && this.installWorkers == installWorkers
    {
      this.installWorkers := installWorkers;
      rootCancelled, workersRemaining, doneCloses := false, 0, 0;
      buf := new Job[0](_ => NO_JOB);
      head, len, started, stopped := 0, 0, false, false;
      installRunning, installCancel, nextToken := map[], map[], 0;
    }

    /** A fresh start opens the queue and counts its workers; a second one changes nothing; after Stop it is refused. */
    method Start() returns (ok: bool)
      requires Valid()
      modifies this`started, this`workersRemaining
      ensures Valid() && ok == !old(stopped)
      ensures View() == if old(stopped) || old(started) then old(View()) else old(View()).(started := true, workersRemaining := installWorkers)
      ensures forall p :: old(View()) == CoreOf(p) && Enabled(p, InstallPool.Start(installWorkers)) ==>
        View() == CoreOf(Apply(p, InstallPool.Start(installWorkers)))
    {
      if stopped { return false; }
      if started { return true; }
      workersRemaining := installWorkers;
      started := true;
      return true;
    }

    /** Stop's call of the install context's cancel function. */
    method CancelRoot()
      requires Valid()
      modifies this`rootCancelled
      ensures Valid() && View() == old(View()).(rootCancelled := true)
      ensures forall p :: old(View()) == CoreOf(p) && Enabled(p, InstallPool.CancelRoot) ==> View() == CoreOf(Apply(p, InstallPool.CancelRoot))
    {
      rootCancelled := true;
    }

    /** A worker returns: the last one closes workersDone. */
    method WorkerExit()
      requires Valid() && workersRemaining > 0
      modifies this`workersRemaining, this`doneCloses
      ensures Valid()
      ensures View() == old(View()).(
        workersRemaining := old(workersRemaining) - 1,
        doneCloses := old(doneCloses) + if old(workersRemaining) == 1 then 1 else 0)
      ensures forall p, w :: old(View()) == CoreOf(p) && Enabled(p, Leave(w)) ==> View() == CoreOf(Apply(p, Leave(w)))
    {
      workersRemaining := workersRemaining - 1;
      if workersRemaining == 0 { doneCloses := doneCloses + 1; }
    }

    /** The region of Stop that closes the queue to new jobs; only the first call finds it open. */
    method SetStopped() returns (first: bool)
      requires Valid()
      modifies this`stopped
      ensures Valid() && first == !old(stopped)
      ensures View() == old(View()).(stopped := true)
      ensures forall p :: old(View()) == CoreOf(p) && Enabled(p, InstallPool.SetStopped) ==> View() == CoreOf(Apply(p, InstallPool.SetStopped))
    {
      if stopped { return false; }
      stopped := true;
      return true;
    }

    method Submit(job: Job) returns (ok: bool)
      requires Valid()
      modifies this`buf, this`head, this`len, buf
      ensures Valid()
      ensures ok == (old(started) && !old(stopped))
      ensures View() == if ok then old(View()).(queue := old(Queue()) + [job]) else old(View())
      ensures forall p :: old(View()) == CoreOf(p) && ok && job == Job(job.id, p.nextTicket) ==> View() == CoreOf(Apply(p, InstallPool.Submit(job.id)))
    {
      if !started || stopped { return false; }
      if head + len == buf.Length {
        Grow();
      }
      buf[head + len] := job;
      len := len + 1;
      return true;
    }

    /** append past the capacity: the slice moves to a longer array. */
    method Grow()
      requires Valid()
      modifies this`buf, this`head
      ensures Valid() && fresh(buf)
      ensures Queue() == old(Queue()) && len == old(len)
      ensures head + len < buf.Length
    {
      var bigger := new Job[2 * len + 1](_ => NO_JOB);
      var i := 0;
      while i < len
        modifies bigger
        invariant i <= len
        invariant bigger[..i] == buf[head..head + i]
      {
        bigger[i] := buf[head + i];
        i := i + 1;
      }
      buf := bigger;
      head := 0;
    }

    /** Remove one workspace's queued jobs by sliding the others down inside the shared array. */
    method TakeAndCancelQueuedInstalls(id: Id) returns (cancel: Option<nat>)
      requires Valid()
      modifies this`len, buf
      ensures Valid()
      ensures View() == old(View()).(queue := Without(old(Queue()), id))
      ensures cancel == if id in installCancel then Some(installCancel[id]) else None
      ensures forall p :: old(View()) == CoreOf(p) ==> View() == CoreOf(Apply(p, TakeQueued(id)))
    {
      len := SlideDown(buf, head, head + len, id);
      return if id in installCancel then Some(installCancel[id]) else None;
    }

    /** The front slot is cleared and the slice moved on by one. */
    method PopFront()
      requires Valid() && len > 0
      modifies this`head, this`len, buf
      ensures Valid() && Queue() == old(Queue())[1..] && len == old(len) - 1
    {
      buf[head] := NO_JOB;
      head, len := head + 1, len - 1;
    }

    /** A worker takes up an install of this workspace under a fresh cancel function. */
    method Track(id: Id) returns (token: nat, previous: Option<nat>)
      modifies this`installCancel, this`installRunning, this`nextToken
      ensures token == old(nextToken) && nextToken == token + 1
      ensures previous == if id in old(installCancel) then Some(old(installCancel)[id]) else None
      ensures installCancel == old(installCancel)[id := token] && installRunning == CountUp(old(installRunning), id)
    {
      previous := if id in installCancel then Some(installCancel[id]) else None;
      installCancel := installCancel[id := nextToken];
      installRunning := CountUp(installRunning, id);
      token := nextToken;
      nextToken := nextToken + 1;
    }

    /** One pass of the dequeue loop. Waiting is the answer only while the queue is empty and open. */
    method Dequeue() returns (job: Option<Job>, token: nat, previous: Option<nat>, exit: bool)
      requires Valid()
      modifies this`head, this`len, this`installCancel, this`installRunning, this`nextToken, buf
      ensures Valid()
      ensures exit <==> old(Queue()) == [] && stopped
      ensures job.Some? <==> old(Queue()) != []
      ensures job.None? ==> View() == old(View())
      ensures job.Some? ==> job.value == old(Queue())[0] && token == old(nextToken)
      ensures job.Some? ==> previous == if job.value.id in old(installCancel) then Some(old(installCancel)[job.value.id]) else None
      ensures job.Some? ==> View() == Dequeued(old(View()))
      ensures forall p, w :: old(View()) == CoreOf(p) && Enabled(p, InstallPool.Dequeue(w)) ==> View() == CoreOf(Apply(p, InstallPool.Dequeue(w)))
    {
      hide InstallPool.Apply, CountUp;
      forall p, w | Enabled(p, InstallPool.Dequeue(w)) ensures CoreOf(Apply(p, InstallPool.Dequeue(w))) == Dequeued(CoreOf(p)) {
        DequeueRefines(p, w);
      }
      if len == 0 {
        return None, 0, None, stopped;
      }
      var j := buf[head];
      assert j == Queue()[0];
      PopFront();
      token, previous := Track(j.id);
      return Some(j), token, previous, false;
    }

    method FinishTrackedInstall(id: Id)
      requires Valid()
      modifies this`installRunning, this`installCancel
      ensures Valid()
      ensures View() == old(View()).(
        installRunning := CountDown(old(installRunning), id),
        installCancel := if id in CountDown(old(installRunning), id) then old(installCancel) else old(installCancel) - {id})
      ensures forall p, w :: old(View()) == CoreOf(p) && Enabled(p, Finish(w)) && p.workers[w].job.id == id ==> View() == CoreOf(Apply(p, Finish(w)))
    {
      if id in installRunning && installRunning[id] > 1 {
        installRunning := installRunning[id := installRunning[id] - 1];
      } else {
        installRunning := installRunning - {id};
        installCancel := installCancel - {id};
      }
    }

    /** One pass of the wait before a delete: free to go on, cancelled, or still waiting. */
    method InstallIdle(id: Id, ctxDone: bool) returns (idle: bool, cancelled: bool)
      requires Valid()
      ensures idle <==> (if id in installRunning then installRunning[id] else 0) == 0
      ensures cancelled <==> !idle && ctxDone
    {
      if id in installRunning && installRunning[id] > 0 {
        return false, ctxDone;
      }
      return true, false;
    }
  }

  /** The jobs that stay are written back from the front of the same array that is being read. */
  method SlideDown(a: array<Job>, lo: nat, hi: nat, id: Id) returns (n: nat)
    requires lo <= hi <= a.Length
    modifies a
    ensures lo + n <= hi
    ensures a[lo..lo + n] == Without(old(a[lo..hi]), id)
  {
    hide Without;
    ghost var before := a[lo..hi];
    ghost var kept: seq<Job> := Without(before[..0], id);
    assert kept == [] by { WithoutNothing(before, id); }
    n := 0;
    var i := lo;
    while i < hi
      invariant lo + n <= i <= hi
      invariant kept == Without(before[..i - lo], id) && |kept| == n
      invariant forall k :: 0 <= k < n ==> a[lo + k] == kept[k]
      invariant forall k :: i <= k < hi ==> a[k] == before[k - lo]
    {
      WithoutStep(before, i - lo, id);
      if a[i].id != id {
        a[lo + n] := a[i];
        kept := kept + [a[lo + n]];
        n := n + 1;
      }
      i := i + 1;
    }
    assert before[..i - lo] == before;
    assert a[lo..lo + n] == kept;
  }

  lemma WithoutNothing(q: seq<Job>, id: Id)
    ensures Without(q[..0], id) == []
  {}

  lemma WithoutStep(q: seq<Job>, i: nat, id: Id)
    requires i < |q|
    ensures Without(q[..i + 1], id) == Without(q[..i], id) + (if q[i].id == id then [] else [q[i]])
  {
    assert q[..i + 1] == q[..i] + [q[i]];
    WithoutAppend(q[..i], [q[i]], id);
  }
}
