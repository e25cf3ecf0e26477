/**
 The install queue and its worker pool as a value: what one mutex-held region of the controller does to it,
 and what every interleaving of those regions keeps. Nothing here assumes that an id is submitted only once.
 */
module InstallPool {
  import opened Workspaces

  /** The ticket numbers accepted jobs in the order Submit accepted them. */
  datatype Job = Job(id: Id, ticket: nat)

  datatype Worker =
    | Waiting
    | Running(job: Job, token: nat)
    | Leaving
    | Gone

  datatype Pool = Pool(
    started: bool,
    stopped: bool,
    queue: seq<Job>,
    nextTicket: nat,
    installRunning: map<Id, nat>,
    installCancel: map<Id, nat>,
    nextToken: nat,
    cancelled: set<nat>,
    rootCancelled: bool,
    workers: map<nat, Worker>,
    workersRemaining: nat,
    doneCloses: nat,
    // history
    finished: set<nat>,
    dropped: set<nat>)

  function NewPool(): Pool {
    Pool(false, false, [], 0, map[], map[], 0, {}, false, map[], 0, 0, {}, {})
  }

  // ----- the data operations, shared with the Controller class -----

  /** The queue without the jobs of one workspace, the others in their order. */
  function Without(q: seq<Job>, id: Id): (r: seq<Job>)
    ensures |r| <= |q|
  {
    if q == [] then []
    else if q[0].id == id then Without(q[1..], id)
    else [q[0]] + Without(q[1..], id)
  }

  function CountUp(m: map<Id, nat>, id: Id): map<Id, nat> {
    m[id := (if id in m then m[id] else 0) + 1]
  }

  /** The count goes down; the entry goes when it reaches zero. */
  function CountDown(m: map<Id, nat>, id: Id): map<Id, nat> {
    if id in m && m[id] > 1 then m[id := m[id] - 1] else m - {id}
  }

  /** n fresh workers. */
  function Crew(n: nat): (m: map<nat, Worker>)
    ensures forall w: nat :: w in m <==> w < n
    ensures forall w :: w in m ==> m[w] == Waiting
  {
    if n == 0 then map[] else Crew(n - 1)[n - 1 := Waiting]
  }

  // ----- the regions as steps -----

  datatype Step =
    | Start(n: nat)
    | SetStopped
    | CancelRoot
    | Submit(id: Id)
    | TakeQueued(id: Id)
    | CancelToken(token: nat)
    | Dequeue(w: nat)
    | Quit(w: nat)
    | Leave(w: nat)
    | Finish(w: nat)

  predicate Accepts(p: Pool) { p.started && !p.stopped }

  predicate Enabled(p: Pool, s: Step) {
    match s
    case Start(n) => n > 0 && !p.stopped && !p.started
    case SetStopped => !p.stopped
    case CancelRoot => p.stopped
    case Submit(_) => Accepts(p)
    case TakeQueued(_) => true
    case CancelToken(token) => token < p.nextToken
    case Dequeue(w) => w in p.workers && p.workers[w].Waiting? && p.queue != []
    case Quit(w) => w in p.workers && p.workers[w].Waiting? && p.queue == [] && p.stopped
    case Leave(w) => w in p.workers && p.workers[w].Leaving? && p.workersRemaining > 0
    case Finish(w) => w in p.workers && p.workers[w].Running?
  }

  function Apply(p: Pool, s: Step): Pool
    requires Enabled(p, s)
  {
    match s
    case Start(n) => p.(started := true, workers := Crew(n), workersRemaining := n)
    case SetStopped => p.(stopped := true)
    case CancelRoot => p.(rootCancelled := true)
    case Submit(id) => p.(queue := p.queue + [Job(id, p.nextTicket)], nextTicket := p.nextTicket + 1)
    case TakeQueued(id) =>
      p.(queue := Without(p.queue, id), dropped := p.dropped + set j | j in p.queue && j.id == id :: j.ticket)
    case CancelToken(token) => p.(cancelled := p.cancelled + {token})
    case Dequeue(w) =>
      var job := p.queue[0];
      p.(queue := p.queue[1..],
         cancelled := if job.id in p.installCancel then p.cancelled + {p.installCancel[job.id]} else p.cancelled,
         installCancel := p.installCancel[job.id := p.nextToken],
         installRunning := CountUp(p.installRunning, job.id),
         nextToken := p.nextToken + 1,
         workers := p.workers[w := Running(job, p.nextToken)])
    case Quit(w) => p.(workers := p.workers[w := Leaving])
    case Leave(w) =>
      p.(workers := p.workers[w := Gone],
         workersRemaining := p.workersRemaining - 1,
         doneCloses := if p.workersRemaining == 1 then p.doneCloses + 1 else p.doneCloses)
    case Finish(w) =>
      var job := p.workers[w].job;
      var left := CountDown(p.installRunning, job.id);
      p.(installRunning := left,
         installCancel := if job.id in left then p.installCancel else p.installCancel - {job.id},
         cancelled := p.cancelled + {p.workers[w].token},
         finished := p.finished + {job.ticket},
         workers := p.workers[w := Waiting])
  }

  /** The fields the controller keeps: under its mutex, and the count of its workers with the channel it closes. */
  datatype Core = Core(
    started: bool,
    stopped: bool,
    queue: seq<Job>,
    installRunning: map<Id, nat>,
    installCancel: map<Id, nat>,
    nextToken: nat,
    rootCancelled: bool,
    workersRemaining: nat,
    doneCloses: nat)

  function CoreOf(p: Pool): Core {
    Core(p.started, p.stopped, p.queue, p.installRunning, p.installCancel, p.nextToken, p.rootCancelled, p.workersRemaining, p.doneCloses)
  }

  // ----- what every interleaving keeps -----

  ghost predicate Holds(p: Pool, w: nat, id: Id) {
    w in p.workers && p.workers[w].Running? && p.workers[w].job.id == id
  }

  ghost function Holders(p: Pool, id: Id): set<nat> {
    set w | w in p.workers && p.workers[w].Running? && p.workers[w].job.id == id
  }

  ghost function Alive(p: Pool): set<nat> {
    set w | w in p.workers && !p.workers[w].Gone?
  }

  ghost predicate Queued(p: Pool, t: nat) { exists i :: 0 <= i < |p.queue| && p.queue[i].ticket == t }

  ghost predicate Underway(p: Pool, t: nat) {
    exists w :: w in p.workers && p.workers[w].Running? && p.workers[w].job.ticket == t
  }

  ghost predicate Fifo(p: Pool) {
    forall i, j :: 0 <= i < j < |p.queue| ==> p.queue[i].ticket < p.queue[j].ticket
  }

  /** A queued ticket is newer than every ticket that has left the queue by its front. */
  ghost predicate ServedInOrder(p: Pool) {
    forall i :: 0 <= i < |p.queue| ==>
      && p.queue[i].ticket < p.nextTicket
      && p.queue[i].ticket !in p.finished && p.queue[i].ticket !in p.dropped
      && (forall w :: w in p.workers && p.workers[w].Running? ==> p.workers[w].job.ticket < p.queue[i].ticket)
      && (forall t :: t in p.finished ==> t < p.queue[i].ticket)
  }

  ghost predicate RunningApart(p: Pool) {
    && (forall w :: w in p.workers && p.workers[w].Running? ==>
          && p.workers[w].job.ticket < p.nextTicket
          && p.workers[w].job.ticket !in p.finished && p.workers[w].job.ticket !in p.dropped
          && p.workers[w].token < p.nextToken)
    && (forall v, w :: v in p.workers && w in p.workers && v != w && p.workers[v].Running? && p.workers[w].Running? ==>
          p.workers[v].job.ticket != p.workers[w].job.ticket && p.workers[v].token != p.workers[w].token)
  }

  ghost predicate Settled(p: Pool) {
    && p.finished !! p.dropped
    && (forall t :: t in p.finished || t in p.dropped ==> t < p.nextTicket)
    && (forall t: nat :: t < p.nextTicket ==> Queued(p, t) || Underway(p, t) || t in p.finished || t in p.dropped)
  }

  ghost predicate CountsMatch(p: Pool) {
    && (forall id :: id in p.installRunning <==> Holders(p, id) != {})
    && (forall id :: id in p.installRunning ==> p.installRunning[id] == |Holders(p, id)|)
    && p.installCancel.Keys == p.installRunning.Keys
    && (forall id :: id in p.installCancel ==> p.installCancel[id] < p.nextToken)
  }

  ghost predicate PoolCounted(p: Pool) {
    && p.workersRemaining == |Alive(p)|
    && (!p.started ==> p.workers == map[] && p.queue == [] && p.doneCloses == 0)
    && (p.started ==> p.workers != map[])
    && (p.started ==> p.doneCloses == if p.workersRemaining == 0 then 1 else 0)
    && ((exists w :: w in p.workers && (p.workers[w].Leaving? || p.workers[w].Gone?)) ==> p.stopped && p.queue == [])
  }

  ghost predicate PoolInv(p: Pool) {
    Ordered(p) && Settled(p) && CountsMatch(p) && PoolCounted(p)
  }

  lemma {:induction false} WithoutIsFilter(q: seq<Job>, id: Id)
    ensures forall j :: j in Without(q, id) <==> j in q && j.id != id
  {
    if q != [] {
      WithoutIsFilter(q[1..], id);
      assert q == [q[0]] + q[1..];
    }
  }

  /** Filtering keeps any order the queue was in. */
  lemma {:induction false} WithoutKeepsOrder(q: seq<Job>, id: Id)
    requires forall i, j :: 0 <= i < j < |q| ==> q[i].ticket < q[j].ticket
    ensures forall i, j :: 0 <= i < j < |Without(q, id)| ==> Without(q, id)[i].ticket < Without(q, id)[j].ticket
  {
    if q != [] {
      WithoutKeepsOrder(q[1..], id);
      WithoutIsFilter(q[1..], id);
      if q[0].id != id {
        var r := Without(q[1..], id);
        forall j | 0 <= j < |r| ensures q[0].ticket < r[j].ticket {
          assert r[j] in q[1..];
          var k :| 0 <= k < |q[1..]| && q[1..][k] == r[j];
          assert q[k + 1] == r[j];
        }
      }
    }
  }

  lemma {:induction false} WithoutAppend(a: seq<Job>, b: seq<Job>, id: Id)
    ensures Without(a + b, id) == Without(a, id) + Without(b, id)
  {
    if a == [] {
      assert a + b == b;
    } else {
      assert (a + b)[1..] == a[1..] + b;
      WithoutAppend(a[1..], b, id);
    }
  }

  lemma NewPoolInv()
    ensures PoolInv(NewPool())
  {
    var p := NewPool();
    assert Alive(p) == {};
    assert forall id :: Holders(p, id) == {};
  }

  // Each conjunct is carried over separately; a region that leaves its part alone goes through a frame lemma.

  ghost predicate SameRunning(p: Pool, q: Pool) {
    && (forall w :: w in p.workers && p.workers[w].Running? ==> w in q.workers && q.workers[w] == p.workers[w])
    && (forall w :: w in q.workers && q.workers[w].Running? ==> w in p.workers && q.workers[w] == p.workers[w])
  }

  lemma CountsFrame(p: Pool, q: Pool)
    requires CountsMatch(p) && SameRunning(p, q)
    requires q.installRunning == p.installRunning && q.installCancel == p.installCancel && q.nextToken == p.nextToken
    ensures CountsMatch(q)
  {
    assert forall id :: Holders(q, id) == Holders(p, id);
  }

  lemma SettledFrame(p: Pool, q: Pool)
    requires Settled(p) && SameRunning(p, q)
    requires q.queue == p.queue && q.finished == p.finished && q.dropped == p.dropped && q.nextTicket == p.nextTicket
    ensures Settled(q)
  {
    forall t: nat | t < q.nextTicket ensures Queued(q, t) || Underway(q, t) || t in q.finished || t in q.dropped {
      assert Queued(p, t) || Underway(p, t) || t in p.finished || t in p.dropped;
      assert Queued(p, t) ==> Queued(q, t);
      if w :| w in p.workers && p.workers[w].Running? && p.workers[w].job.ticket == t {
        assert q.workers[w] == p.workers[w];
      }
    }
  }

  ghost predicate Ordered(p: Pool) { Fifo(p) && ServedInOrder(p) && RunningApart(p) }

  lemma OrderFrame(p: Pool, q: Pool)
    requires Ordered(p) && SameRunning(p, q)
    requires q.queue == p.queue && q.finished == p.finished && q.dropped == p.dropped
    requires q.nextTicket == p.nextTicket && q.nextToken == p.nextToken
    ensures Ordered(q)
  {}

  lemma StartKeeps(p: Pool, n: nat)
    requires PoolInv(p) && Enabled(p, Start(n))
    ensures PoolInv(Apply(p, Start(n)))
  {
    hide CountsMatch, Settled, Fifo, ServedInOrder, RunningApart;
    var q := Apply(p, Start(n));
    CountsFrame(p, q);
    SettledFrame(p, q);
    OrderFrame(p, q);
    CrewSize(n);
    assert Alive(q) == Crew(n).Keys;
    assert n - 1 in q.workers;
  }

  lemma {:induction false} CrewSize(n: nat)
    ensures |Crew(n)| == |Crew(n).Keys| == n
  {
    if n > 0 {
      CrewSize(n - 1);
      assert Crew(n).Keys == Crew(n - 1).Keys + {n - 1};
    }
  }

  lemma FlagKeeps(p: Pool, s: Step)
    requires PoolInv(p) && Enabled(p, s) && (s.SetStopped? || s.CancelRoot? || s.CancelToken?)
    ensures PoolInv(Apply(p, s))
  {
    hide CountsMatch, Settled, Fifo, ServedInOrder, RunningApart;
    var q := Apply(p, s);
    CountsFrame(p, q);
    SettledFrame(p, q);
    OrderFrame(p, q);
    assert Alive(q) == Alive(p);
  }

  lemma SubmitSettled(p: Pool, id: Id)
    requires Settled(p) && Enabled(p, Submit(id))
    ensures Settled(Apply(p, Submit(id)))
  {
    var q := Apply(p, Submit(id));
    assert q.queue[|p.queue|] == Job(id, p.nextTicket);
    forall t: nat | t < q.nextTicket ensures Queued(q, t) || Underway(q, t) || t in q.finished || t in q.dropped {
      if t < p.nextTicket {
        assert Queued(p, t) || Underway(p, t) || t in p.finished || t in p.dropped;
        if i :| 0 <= i < |p.queue| && p.queue[i].ticket == t {
          assert q.queue[i].ticket == t;
        }
        assert Underway(p, t) ==> Underway(q, t);
      }
    }
  }

  lemma SubmitOrdered(p: Pool, id: Id)
    requires Ordered(p) && Settled(p) && Enabled(p, Submit(id))
    ensures Ordered(Apply(p, Submit(id)))
  {
    var q := Apply(p, Submit(id));
    assert forall i :: 0 <= i < |q.queue| ==> q.queue[i] == if i < |p.queue| then p.queue[i] else Job(id, p.nextTicket);
  }

  lemma SubmitKeeps(p: Pool, id: Id)
    requires PoolInv(p) && Enabled(p, Submit(id))
    ensures PoolInv(Apply(p, Submit(id)))
  {
    hide CountsMatch, Settled, Fifo, ServedInOrder, RunningApart;
    var q := Apply(p, Submit(id));
    CountsFrame(p, q);
    SubmitSettled(p, id);
    SubmitOrdered(p, id);
    assert Alive(q) == Alive(p);
  }

  lemma TakeOrdered(p: Pool, id: Id)
    requires Ordered(p)
    ensures Ordered(Apply(p, TakeQueued(id)))
  {
    var q := Apply(p, TakeQueued(id));
    WithoutIsFilter(p.queue, id);
    WithoutKeepsOrder(p.queue, id);
    forall i | 0 <= i < |q.queue| ensures q.queue[i] in p.queue && q.queue[i].ticket !in q.dropped {
      assert q.queue[i] in q.queue;
      var b :| 0 <= b < |p.queue| && p.queue[b] == q.queue[i];
      forall j | j in p.queue && j.id == id ensures j.ticket != q.queue[i].ticket {
        var a :| 0 <= a < |p.queue| && p.queue[a] == j;
        assert a < b || b < a;
      }
    }
    forall j | j in p.queue ensures forall w :: w in p.workers && p.workers[w].Running? ==> p.workers[w].job.ticket != j.ticket {
      var a :| 0 <= a < |p.queue| && p.queue[a] == j;
    }
  }

  lemma TakeSettled(p: Pool, id: Id)
    requires Settled(p) && ServedInOrder(p)
    ensures Settled(Apply(p, TakeQueued(id)))
  {
    var q := Apply(p, TakeQueued(id));
    WithoutIsFilter(p.queue, id);
    forall t | t in q.dropped && t !in p.dropped ensures t < p.nextTicket && t !in p.finished {
      var j :| j in p.queue && j.id == id && j.ticket == t;
      var a :| 0 <= a < |p.queue| && p.queue[a] == j;
    }
    forall t: nat | t < q.nextTicket ensures Queued(q, t) || Underway(q, t) || t in q.finished || t in q.dropped {
      assert Queued(p, t) || Underway(p, t) || t in p.finished || t in p.dropped;
      if i :| 0 <= i < |p.queue| && p.queue[i].ticket == t {
        assert p.queue[i] in p.queue;
        if p.queue[i].id != id {
          assert p.queue[i] in q.queue;
          var k :| 0 <= k < |q.queue| && q.queue[k] == p.queue[i];
          assert Queued(q, t);
        }
      } else {
        assert Underway(p, t) ==> Underway(q, t);
      }
    }
  }

  lemma TakeKeeps(p: Pool, id: Id)
    requires PoolInv(p)
    ensures PoolInv(Apply(p, TakeQueued(id)))
  {
    TakeOrdered(p, id);
    TakeSettled(p, id);
    hide CountsMatch, Settled, Fifo, ServedInOrder, RunningApart;
    var q := Apply(p, TakeQueued(id));
    CountsFrame(p, q);
    assert Alive(q) == Alive(p);
    WithoutIsFilter(p.queue, id);
  }

  lemma HolderAdded(p: Pool, q: Pool, w: nat, id: Id)
    requires w in p.workers && p.workers[w].Waiting?
    requires w in q.workers && q.workers == p.workers[w := q.workers[w]]
    requires q.workers[w].Running? && q.workers[w].job.id == id
    ensures w !in Holders(p, id)
    ensures Holders(q, id) == Holders(p, id) + {w}
    ensures forall x :: x != id ==> Holders(q, x) == Holders(p, x)
  {}

  lemma CountsRaised(p: Pool, q: Pool, w: nat, id: Id)
    requires CountsMatch(p)
    requires Holders(q, id) == Holders(p, id) + {w} && w !in Holders(p, id)
    requires forall x :: x != id ==> Holders(q, x) == Holders(p, x)
    requires q.installRunning == CountUp(p.installRunning, id)
    requires q.installCancel == p.installCancel[id := p.nextToken] && q.nextToken == p.nextToken + 1
    ensures CountsMatch(q)
  {
    hide Holders;
    var before := Holders(p, id);
    assert id !in p.installRunning ==> before == {};
    assert |before + {w}| == |before| + 1;
    assert w in Holders(q, id);
    forall x | x in q.installRunning ensures q.installRunning[x] == |Holders(q, x)| {
      assert x == id || Holders(q, x) == Holders(p, x);
    }
  }

  lemma DequeueCounts(p: Pool, w: nat)
    requires CountsMatch(p) && Enabled(p, Dequeue(w))
    ensures CountsMatch(Apply(p, Dequeue(w)))
  {
    hide CountsMatch, CountUp, Holders;
    var q := Apply(p, Dequeue(w));
    var job := p.queue[0];
    HolderAdded(p, q, w, job.id);
    CountsRaised(p, q, w, job.id);
  }

  lemma DequeueSettled(p: Pool, w: nat)
    requires Settled(p) && Enabled(p, Dequeue(w))
    ensures Settled(Apply(p, Dequeue(w)))
  {
    var q := Apply(p, Dequeue(w));
    forall t: nat | t < q.nextTicket ensures Queued(q, t) || Underway(q, t) || t in q.finished || t in q.dropped {
      assert Queued(p, t) || Underway(p, t) || t in p.finished || t in p.dropped;
      if i :| 0 <= i < |p.queue| && p.queue[i].ticket == t {
        if i == 0 { assert q.workers[w].job.ticket == t; } else { assert q.queue[i - 1].ticket == t; }
      } else if v :| v in p.workers && p.workers[v].Running? && p.workers[v].job.ticket == t {
        assert q.workers[v] == p.workers[v];
      }
    }
  }

  lemma DequeueOrdered(p: Pool, w: nat)
    requires Ordered(p) && Enabled(p, Dequeue(w))
    ensures Ordered(Apply(p, Dequeue(w)))
  {
    var q := Apply(p, Dequeue(w));
    assert forall i :: 0 <= i < |q.queue| ==> q.queue[i] == p.queue[i + 1];
  }

  lemma DequeueKeeps(p: Pool, w: nat)
    requires PoolInv(p) && Enabled(p, Dequeue(w))
    ensures PoolInv(Apply(p, Dequeue(w)))
  {
    hide CountsMatch, Settled, Fifo, ServedInOrder, RunningApart;
    var q := Apply(p, Dequeue(w));
    DequeueCounts(p, w);
    DequeueSettled(p, w);
    DequeueOrdered(p, w);
    assert Alive(q) == Alive(p);
  }

  lemma FinishCounts(p: Pool, w: nat)
    requires CountsMatch(p) && Enabled(p, Finish(w))
    ensures CountsMatch(Apply(p, Finish(w)))
  {
    hide Holders, Apply;
    FinishHolders(p, w);
    FinishFields(p, w);
    var q, id := Apply(p, Finish(w)), p.workers[w].job.id;
    assert |Holders(q, id)| == |Holders(p, id)| - 1;
    forall x ensures x in q.installRunning <==> Holders(q, x) != {} {
      assert x in p.installRunning <==> Holders(p, x) != {};
    }
  }

  lemma FinishFields(p: Pool, w: nat)
    requires Enabled(p, Finish(w))
    ensures var q, left := Apply(p, Finish(w)), CountDown(p.installRunning, p.workers[w].job.id);
      && q.installRunning == left && q.nextToken == p.nextToken
      && q.installCancel == if p.workers[w].job.id in left then p.installCancel else p.installCancel - {p.workers[w].job.id}
  {}

  lemma FinishHolders(p: Pool, w: nat)
    requires Enabled(p, Finish(w))
    ensures var q, id := Apply(p, Finish(w)), p.workers[w].job.id;
      && w in Holders(p, id) && Holders(q, id) == Holders(p, id) - {w}
      && forall x :: x != id ==> Holders(q, x) == Holders(p, x)
  {}

  lemma FinishSettled(p: Pool, w: nat)
    requires Settled(p) && RunningApart(p) && Enabled(p, Finish(w))
    ensures Settled(Apply(p, Finish(w)))
  {
    var q := Apply(p, Finish(w));
    forall t: nat | t < q.nextTicket ensures Queued(q, t) || Underway(q, t) || t in q.finished || t in q.dropped {
      assert Queued(p, t) || Underway(p, t) || t in p.finished || t in p.dropped;
      assert Queued(p, t) ==> Queued(q, t);
      if v :| v in p.workers && p.workers[v].Running? && p.workers[v].job.ticket == t {
        if v != w { assert q.workers[v] == p.workers[v]; }
      }
    }
  }

  lemma FinishOrdered(p: Pool, w: nat)
    requires Ordered(p) && Enabled(p, Finish(w))
    ensures Ordered(Apply(p, Finish(w)))
  {}

  lemma FinishKeeps(p: Pool, w: nat)
    requires PoolInv(p) && Enabled(p, Finish(w))
    ensures PoolInv(Apply(p, Finish(w)))
  {
    hide CountsMatch, Settled, Fifo, ServedInOrder, RunningApart;
    var q := Apply(p, Finish(w));
    FinishCounts(p, w);
    FinishSettled(p, w);
    FinishOrdered(p, w);
    assert Alive(q) == Alive(p);
  }

  lemma ExitKeeps(p: Pool, s: Step)
    requires PoolInv(p) && Enabled(p, s) && (s.Quit? || s.Leave?)
    ensures PoolInv(Apply(p, s))
  {
    hide CountsMatch, Settled, Fifo, ServedInOrder, RunningApart;
    var q := Apply(p, s);
    CountsFrame(p, q);
    SettledFrame(p, q);
    OrderFrame(p, q);
    assert s.w in Alive(p);
    assert Alive(q) == if s.Quit? then Alive(p) else Alive(p) - {s.w};
  }

  lemma StepKeeps(p: Pool, s: Step)
    requires PoolInv(p) && Enabled(p, s)
    ensures PoolInv(Apply(p, s))
  {
    hide PoolInv, Apply;
    match s
    case Start(n) => StartKeeps(p, n);
    case SetStopped => FlagKeeps(p, s);
    case CancelRoot => FlagKeeps(p, s);
    case CancelToken(_) => FlagKeeps(p, s);
    case Submit(id) => SubmitKeeps(p, id);
    case TakeQueued(id) => TakeKeeps(p, id);
    case Dequeue(w) => DequeueKeeps(p, w);
    case Quit(_) => ExitKeeps(p, s);
    case Leave(_) => ExitKeeps(p, s);
    case Finish(w) => FinishKeeps(p, w);
  }

  // ----- runs -----

  ghost predicate IsRun(states: seq<Pool>, steps: seq<Step>) {
    && |states| == |steps| + 1
    && states[0] == NewPool()
    && forall i :: 0 <= i < |steps| ==> Enabled(states[i], steps[i]) && states[i + 1] == Apply(states[i], steps[i])
  }

  lemma {:induction false} RunKeeps(states: seq<Pool>, steps: seq<Step>, n: nat)
    requires IsRun(states, steps) && n < |states|
    ensures PoolInv(states[n])
  {
    if n == 0 {
      NewPoolInv();
    } else {
      RunKeeps(states, steps, n - 1);
      StepKeeps(states[n - 1], steps[n - 1]);
    }
  }

  /** In every state of every run an accepted job is in exactly one place, and nothing else is in any. */
  lemma JobsAreConserved(states: seq<Pool>, steps: seq<Step>, n: nat, t: nat)
    requires IsRun(states, steps) && n < |states|
    ensures var p := states[n];
      && (t < p.nextTicket <==> Queued(p, t) || Underway(p, t) || t in p.finished || t in p.dropped)
      && !(Queued(p, t) && (Underway(p, t) || t in p.finished || t in p.dropped))
      && !(Underway(p, t) && (t in p.finished || t in p.dropped))
      && !(t in p.finished && t in p.dropped)
  {
    RunKeeps(states, steps, n);
  }

  /** The two maps are bookkeeping of the workers: counts are holders, and a cancel entry exists while one runs. */
  lemma CountsAreHolders(states: seq<Pool>, steps: seq<Step>, n: nat, id: Id)
    requires IsRun(states, steps) && n < |states|
    ensures var p := states[n];
      && (if id in p.installRunning then p.installRunning[id] else 0) == |Holders(p, id)|
      && (id in p.installRunning <==> exists w :: Holds(p, w, id))
      && (id in p.installCancel <==> id in p.installRunning)
  {
    RunKeeps(states, steps, n);
    var p := states[n];
    if w :| w in Holders(p, id) { assert Holds(p, w, id); }
    if w :| Holds(p, w, id) { assert w in Holders(p, id); }
  }

  /** Workers are announced done at most once, and then nothing is queued, running or counted, now or later. */
  lemma DoneMeansDrained(states: seq<Pool>, steps: seq<Step>, n: nat)
    requires IsRun(states, steps) && n < |states|
    ensures states[n].doneCloses <= 1
    ensures states[n].doneCloses == 1 ==>
      && states[n].stopped
      && states[n].queue == []
      && states[n].installRunning == map[] && states[n].installCancel == map[]
      && forall t: nat :: t < states[n].nextTicket <==> t in states[n].finished || t in states[n].dropped
  {
    RunKeeps(states, steps, n);
    if states[n].doneCloses == 1 {
      DoneInv(states[n]);
      assert forall t: nat :: !Queued(states[n], t) && !Underway(states[n], t);
    }
  }

  lemma DoneInv(p: Pool)
    requires PoolInv(p) && p.doneCloses > 0
    ensures p.started && p.stopped && p.queue == []
    ensures p.installRunning == map[] && p.installCancel == map[]
    ensures forall w :: w in p.workers ==> p.workers[w].Gone?
  {
    assert Alive(p) == {};
    forall w | w in p.workers ensures p.workers[w].Gone? { assert w !in Alive(p); }
    var w :| w in p.workers;
    assert forall id :: Holders(p, id) == {};
  }

  // ----- the drain ends -----

  ghost function Busy(p: Pool): set<nat> { set w | w in p.workers && p.workers[w].Running? }

  ghost function Serving(p: Pool): set<nat> { set w | w in p.workers && (p.workers[w].Running? || p.workers[w].Waiting?) }

  /** Four for each queued job, and three, two, one and none for a worker that runs, waits, leaves and is gone. */
  ghost function Weight(p: Pool): nat { 4 * |p.queue| + |Busy(p)| + |Serving(p)| + |Alive(p)| }

  predicate Works(s: Step) { s.Dequeue? || s.Finish? || s.Quit? || s.Leave? }

  /** Until the workers are announced done, a stopped pool has a worker that can take a step. */
  lemma DrainCanMove(p: Pool) returns (s: Step)
    requires PoolInv(p) && p.started && p.stopped && p.doneCloses == 0
    ensures Works(s) && Enabled(p, s)
  {
    assert Alive(p) != {};
    var w :| w in Alive(p);
    s := match p.workers[w]
      case Waiting => if p.queue == [] then Quit(w) else Dequeue(w)
      case Running(_, _) => Finish(w)
      case _ => Leave(w);
  }

  lemma WorkShrinks(p: Pool, s: Step)
    requires Enabled(p, s) && Works(s)
    ensures Weight(Apply(p, s)) < Weight(p)
  {
    var q, w := Apply(p, s), s.w;
    WorkMoves(p, s);
    hide Apply, Enabled, Busy, Serving, Alive;
    match s
    case Dequeue(_) => assert |Busy(p) + {w}| <= |Busy(p)| + 1;
    case _ =>
  }

  /** A worker's step moves that worker down one level, or one job out of the queue and the worker up one. */
  lemma WorkMoves(p: Pool, s: Step)
    requires Enabled(p, s) && Works(s)
    ensures var q, w := Apply(p, s), s.w;
      && |q.queue| == |p.queue| - (if s.Dequeue? then 1 else 0)
      && Busy(q) == (if s.Dequeue? then Busy(p) + {w} else if s.Finish? then Busy(p) - {w} else Busy(p))
      && Serving(q) == (if s.Quit? then Serving(p) - {w} else Serving(p))
      && Alive(q) == (if s.Leave? then Alive(p) - {w} else Alive(p))
      && (s.Finish? ==> w in Busy(p)) && (s.Quit? ==> w in Serving(p)) && (s.Leave? ==> w in Alive(p))
  {
    hide CountUp, CountDown;
  }

  /** What else can still happen to a stopped pool adds no work. */
  lemma NothingGrows(p: Pool, s: Step)
    requires Enabled(p, s) && p.stopped && !Works(s)
    ensures Weight(Apply(p, s)) <= Weight(p) && Apply(p, s).stopped
  {
    var q := Apply(p, s);
    assert Busy(q) == Busy(p) && Serving(q) == Serving(p) && Alive(q) == Alive(p);
  }

  function CountWorks(steps: seq<Step>): nat {
    if steps == [] then 0 else CountWorks(steps[..|steps| - 1]) + (if Works(steps[|steps| - 1]) then 1 else 0)
  }

  lemma {:induction false} WorkIsBounded(states: seq<Pool>, steps: seq<Step>, i: nat, j: nat)
    requires IsRun(states, steps) && i <= j <= |steps| && states[i].stopped
    ensures states[j].stopped && CountWorks(steps[i..j]) + Weight(states[j]) <= Weight(states[i])
    decreases j
  {
    hide Weight, Apply;
    if i < j {
      WorkIsBounded(states, steps, i, j - 1);
      assert steps[i..j][..j - 1 - i] == steps[i..j - 1];
      if Works(steps[j - 1]) {
        WorkShrinks(states[j - 1], steps[j - 1]);
        StaysStopped(states[j - 1], steps[j - 1]);
      } else {
        NothingGrows(states[j - 1], steps[j - 1]);
      }
    }
  }

  lemma StaysStopped(p: Pool, s: Step)
    requires Enabled(p, s) && p.stopped
    ensures Apply(p, s).stopped
  {}

  /**
   From the moment it is stopped the pool is drained by at most Weight steps of its workers, whatever else
   happens in between; and as long as the workers are not announced done, one of them can take such a step.
   */
  lemma StoppedPoolDrains(states: seq<Pool>, steps: seq<Step>, i: nat, j: nat)
    requires IsRun(states, steps) && i <= j <= |steps| && states[i].stopped && states[i].started
    ensures CountWorks(steps[i..j]) <= Weight(states[i])
    ensures states[j].doneCloses == 0 ==> exists s :: Works(s) && Enabled(states[j], s)
    ensures CountWorks(steps[i..j]) == Weight(states[i]) ==> states[j].doneCloses == 1
  {
    hide Weight, Apply;
    WorkIsBounded(states, steps, i, j);
    RunKeeps(states, steps, j);
    StaysStarted(states, steps, i, j);
    if states[j].doneCloses == 0 {
      var s := DrainCanMove(states[j]);
      WorkShrinks(states[j], s);
    }
  }

  lemma {:induction false} StaysStarted(states: seq<Pool>, steps: seq<Step>, i: nat, j: nat)
    requires IsRun(states, steps) && i <= j <= |steps| && states[i].started
    ensures states[j].started
    decreases j
  {
    if i < j { StaysStarted(states, steps, i, j - 1); }
  }
}
