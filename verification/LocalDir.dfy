/**
 The begin/clear protocol of the localdir driver: operations share the root handle, Clear waits for them to
 leave and then has the directory to itself. A turn is what one call does between taking the mutex and either
 releasing it or going to sleep on the condition variable; contexts and the file system are nondeterministic.
 */
module LocalDir {
  import opened Common

  type Handle = nat

  /** nextHandle and closed are history: the handles opened so far and those closed again. */
  datatype Lock = Lock(
    clearing: bool,
    cleared: bool,
    initialized: bool,
    activeOps: int,
    root: Option<Handle>,
    nextHandle: nat,
    closed: set<Handle>)

  datatype Kind = Op | InitDir | OpenDir | ClearDir

  datatype Answer = Success | Cancelled | WasCleared | NotInitialized | AlreadyInitialized | FileError

  datatype Actor =
    | AtGate(kind: Kind, asleep: bool)
    | Holding(handle: Handle)
    | Draining(asleep: bool)
    | Removing(root: Option<Handle>)
    | Done(answer: Answer)

  /** The lock after the turn, where the caller stands now, and whether the condition variable was broadcast. */
  datatype Turn = Turn(lock: Lock, next: Actor, wakes: bool)

  const FRESH := Lock(false, false, false, 0, None, 0, {})

  function Close(l: Lock, root: Option<Handle>): Lock {
    if root.Some? then l.(closed := l.closed + {root.value}) else l
  }

  function OpTurn(l: Lock, cancelled: bool): Turn {
    if cancelled then Turn(l, Done(Cancelled), false)
    else if l.clearing then Turn(l, AtGate(Op, true), false)
    else if l.cleared then Turn(l, Done(WasCleared), false)
    else if !l.initialized || l.root.None? then Turn(l, Done(NotInitialized), false)
    else Turn(l.(activeOps := l.activeOps + 1), Holding(l.root.value), false)
  }

  /** What opening the root came to: a failure before it, a context that ended after it, or a handle. */
  datatype Setup = NoHandle | TooLate | Opened

  /** setRootLocked on the handle just opened: a handle that is not published is closed again. */
  function PublishTurn(l: Lock, cancelled: bool): Turn {
    var after := l.(nextHandle := l.nextHandle + 1);
    if cancelled || l.cleared || l.initialized then
      Turn(Close(after, Some(l.nextHandle)), Done(if cancelled then Cancelled else if l.cleared then WasCleared else Success), false)
    else Turn(after.(root := Some(l.nextHandle), initialized := true), Done(Success), false)
  }

  function SetupTurn(l: Lock, setup: Setup): Turn {
    if setup.NoHandle? then Turn(l, Done(FileError), false) else PublishTurn(l, setup.TooLate?)
  }

  /** Init and Open differ in what they answer when the root is already there. */
  function RootTurn(l: Lock, kind: Kind, cancelled: bool, setup: Setup): Turn
    requires kind == InitDir || kind == OpenDir
  {
    if cancelled then Turn(l, Done(Cancelled), false)
    else if l.clearing then Turn(l, AtGate(kind, true), false)
    else if l.cleared then Turn(l, Done(WasCleared), false)
    else if l.initialized then Turn(l, Done(if kind == InitDir then AlreadyInitialized else Success), false)
    else SetupTurn(l, setup)
  }

  /** The second wait of Clear: giving up resets clearing and wakes everybody. */
  function DrainTurn(l: Lock, cancelled: bool): Turn {
    if cancelled then Turn(l.(clearing := false), Done(Cancelled), true)
    else if l.activeOps > 0 then Turn(l, Draining(true), false)
    else Turn(l, Removing(l.root), false)
  }

  function ClearTurn(l: Lock, cancelled: bool, cancelledLater: bool): Turn {
    if cancelled then Turn(l, Done(Cancelled), false)
    else if l.clearing then Turn(l, AtGate(ClearDir, true), false)
    else if l.cleared then Turn(l, Done(Success), false)
    else DrainTurn(l.(clearing := true), cancelledLater)
  }

  function ReleaseTurn(l: Lock): Turn {
    Turn(l.(activeOps := l.activeOps - 1), Done(Success), l.activeOps == 1)
  }

  function FinishTurn(l: Lock, ok: bool): Turn {
    Turn(Close(l, l.root).(root := None, initialized := false, cleared := l.cleared || ok, clearing := false),
         Done(if ok then Success else FileError), true)
  }

  // ----- the state machine -----

  datatype State = State(lock: Lock, actors: map<nat, Actor>)

  datatype Step =
    | Enter(a: nat, kind: Kind)
    | PassGate(a: nat, cancelled: bool, setup: Setup, cancelledLater: bool)
    | Drain(a: nat, cancelled: bool)
    | Release(a: nat)
    | Finish(a: nat, ok: bool)
    | ContextEnds

  predicate Enabled(s: State, t: Step) {
    match t
    case Enter(a, _) => a !in s.actors
    case PassGate(a, _, _, _) => a in s.actors && s.actors[a].AtGate? && !s.actors[a].asleep
    case Drain(a, _) => a in s.actors && s.actors[a].Draining? && !s.actors[a].asleep
    case Release(a) => a in s.actors && s.actors[a].Holding?
    case Finish(a, _) => a in s.actors && s.actors[a].Removing?
    case ContextEnds => true
  }

  function GateTurn(l: Lock, kind: Kind, cancelled: bool, setup: Setup, cancelledLater: bool): Turn {
    match kind
    case Op => OpTurn(l, cancelled)
    case ClearDir => ClearTurn(l, cancelled, cancelledLater)
    case _ => RootTurn(l, kind, cancelled, setup)
  }

  function TurnOf(s: State, t: Step): Turn
    requires Enabled(s, t) && !t.ContextEnds?
  {
    match t
    case Enter(_, kind) => Turn(s.lock, AtGate(kind, false), false)
    case PassGate(a, cancelled, setup, later) => GateTurn(s.lock, s.actors[a].kind, cancelled, setup, later)
    case Drain(_, cancelled) => DrainTurn(s.lock, cancelled)
    case Release(_) => ReleaseTurn(s.lock)
    case Finish(_, ok) => FinishTurn(s.lock, ok)
  }

  function Awake(x: Actor): Actor {
    match x
    case AtGate(kind, _) => AtGate(kind, false)
    case Draining(_) => Draining(false)
    case _ => x
  }

  function Woken(m: map<nat, Actor>): map<nat, Actor> { map a | a in m :: Awake(m[a]) }

  function Settle(actors: map<nat, Actor>, a: nat, next: Actor): map<nat, Actor> {
    if next.Done? then actors - {a} else actors[a := next]
  }

  function Apply(s: State, t: Step): State
    requires Enabled(s, t)
  {
    if t.ContextEnds? then s.(actors := Woken(s.actors))
    else
      var turn := TurnOf(s, t);
      var actors := if turn.wakes then Woken(s.actors) else s.actors;
      State(turn.lock, Settle(actors, t.a, turn.next))
  }

  // ----- what every interleaving keeps -----

  predicate IsClear(x: Actor) { x.Draining? || x.Removing? }

  ghost function Holders(actors: map<nat, Actor>): set<nat> { set a | a in actors && actors[a].Holding? }

  ghost function Clears(actors: map<nat, Actor>): set<nat> { set a | a in actors && IsClear(actors[a]) }

  ghost predicate LockInv(l: Lock) {
    && (l.initialized <==> l.root.Some?)
    && (l.cleared ==> !l.initialized)
    && (forall h: Handle :: h < l.nextHandle <==> h in l.closed || l.root == Some(h))
    && (l.root.Some? ==> l.root.value !in l.closed)
  }

  /** Where a call may stand, given the lock; a sleeper's wait is not over, so no wake-up was lost. */
  ghost predicate ActorInv(l: Lock, x: Actor) {
    match x
    case AtGate(_, asleep) => asleep ==> l.clearing
    case Holding(handle) => l.root == Some(handle)
    case Draining(asleep) => l.clearing && !l.cleared && (asleep ==> l.activeOps > 0)
    case Removing(root) => l.clearing && !l.cleared && l.activeOps == 0 && root == l.root
    case Done(_) => false
  }

  ghost predicate ActorsInv(l: Lock, actors: map<nat, Actor>) {
    forall a :: a in actors ==> ActorInv(l, actors[a])
  }

  ghost predicate CountInv(l: Lock, actors: map<nat, Actor>) {
    && l.activeOps == |Holders(actors)|
    && (l.clearing <==> Clears(actors) != {})
    && forall a, b :: a in Clears(actors) && b in Clears(actors) ==> a == b
  }

  ghost predicate Inv(s: State) {
    LockInv(s.lock) && ActorsInv(s.lock, s.actors) && CountInv(s.lock, s.actors)
  }

  lemma WokenSame(actors: map<nat, Actor>)
    ensures Woken(actors).Keys == actors.Keys
    ensures Holders(Woken(actors)) == Holders(actors) && Clears(Woken(actors)) == Clears(actors)
  {}

  lemma WokenInv(l: Lock, actors: map<nat, Actor>)
    requires ActorsInv(l, actors) && CountInv(l, actors)
    ensures ActorsInv(l, Woken(actors)) && CountInv(l, Woken(actors))
  {
    WokenSame(actors);
  }

  /** Counting the calls again after one of them moved. */
  lemma SettleCounts(actors: map<nat, Actor>, a: nat, next: Actor)
    ensures var m := Settle(actors, a, next);
      && Holders(m) == (if next.Holding? then Holders(actors) + {a} else Holders(actors) - {a})
      && Clears(m) == (if IsClear(next) then Clears(actors) + {a} else Clears(actors) - {a})
  {}

  lemma OneClear(l: Lock, actors: map<nat, Actor>, a: nat)
    requires CountInv(l, actors) && a in actors && IsClear(actors[a])
    ensures Clears(actors) == {a}
  {
    assert a in Clears(actors);
  }

  lemma NoHolders(actors: map<nat, Actor>)
    requires |Holders(actors)| == 0
    ensures forall b :: b in actors ==> !actors[b].Holding?
  {
    forall b | b in actors ensures !actors[b].Holding? { assert b !in Holders(actors); }
  }

  /** What a turn before the gate may do to the lock, as far as the other calls can see. */
  ghost predicate Mild(l: Lock, turn: Turn) {
    && !turn.wakes && turn.lock.clearing == l.clearing
    && (turn.lock == l || !l.clearing)
    && (l.root.Some? ==> turn.lock.root == l.root)
    && !IsClear(turn.next)
    && turn.lock.activeOps == l.activeOps + if turn.next.Holding? then 1 else 0
  }

  lemma MildOthers(s: State, turn: Turn, b: nat)
    requires ActorsInv(s.lock, s.actors) && CountInv(s.lock, s.actors) && Mild(s.lock, turn) && b in s.actors
    ensures ActorInv(turn.lock, s.actors[b])
  {
    assert ActorInv(s.lock, s.actors[b]);
    assert IsClear(s.actors[b]) ==> b in Clears(s.actors);
  }

  lemma MildCounts(s: State, a: nat, turn: Turn)
    requires CountInv(s.lock, s.actors) && a in s.actors && s.actors[a].AtGate? && Mild(s.lock, turn)
    ensures CountInv(turn.lock, Settle(s.actors, a, turn.next))
  {
    SettleCounts(s.actors, a, turn.next);
    assert a !in Holders(s.actors) && a !in Clears(s.actors);
    hide Settle, Holders, Clears;
  }

  /** A call before the gate sleeps, returns or begins an operation; the others see what they saw. */
  lemma GateKeeps(s: State, a: nat, turn: Turn)
    requires Inv(s) && a in s.actors && s.actors[a].AtGate? && Mild(s.lock, turn) && LockInv(turn.lock)
    requires turn.next.Done? || ActorInv(turn.lock, turn.next)
    ensures Inv(State(turn.lock, Settle(s.actors, a, turn.next)))
  {
    hide LockInv, CountInv, ActorInv, Mild;
    MildCounts(s, a, turn);
    forall b | b in s.actors ensures ActorInv(turn.lock, s.actors[b]) { MildOthers(s, turn, b); }
  }

  /** A Clear takes the gate: with it shut, and no other Clear inside, the sleepers' waits all go on. */
  lemma ShutKeeps(s: State, a: nat, next: Actor)
    requires Inv(s) && a in s.actors && s.actors[a].AtGate? && !s.lock.clearing && !s.lock.cleared
    requires next == if s.lock.activeOps > 0 then Draining(true) else Removing(s.lock.root)
    ensures Inv(State(s.lock.(clearing := true), s.actors[a := next]))
  {
    SettleCounts(s.actors, a, next);
    assert a !in Holders(s.actors) && a !in Clears(s.actors);
    forall b | b in s.actors && b != a ensures ActorInv(s.lock.(clearing := true), s.actors[b]) {
      assert ActorInv(s.lock, s.actors[b]);
      assert b !in Clears(s.actors);
    }
  }

  lemma ClearGateKeeps(s: State, a: nat, later: bool)
    requires Inv(s) && a in s.actors && s.actors[a].AtGate? && !s.lock.clearing && !s.lock.cleared
    ensures var turn := DrainTurn(s.lock.(clearing := true), later);
      Inv(State(turn.lock, Settle(if turn.wakes then Woken(s.actors) else s.actors, a, turn.next)))
  {
    if later {
      WokenInv(s.lock, s.actors);
      var woken := State(s.lock, Woken(s.actors));
      assert Inv(woken) && LockInv(s.lock);
      hide Inv, LockInv, Woken;
      assert s.lock.(clearing := true).(clearing := false) == s.lock;
      assert woken.actors[a].AtGate? by { WokenGate(s.actors, a); }
      GateKeeps(woken, a, Turn(s.lock, Done(Cancelled), false));
    } else {
      hide Inv;
      ShutKeeps(s, a, if s.lock.activeOps > 0 then Draining(true) else Removing(s.lock.root));
    }
  }

  lemma WokenGate(actors: map<nat, Actor>, a: nat)
    requires a in actors && actors[a].AtGate?
    ensures a in Woken(actors) && Woken(actors)[a].AtGate?
  {}

  lemma OpTurnOk(l: Lock, cancelled: bool)
    requires LockInv(l)
    ensures var turn := OpTurn(l, cancelled);
      LockInv(turn.lock) && (turn.next.Done? || ActorInv(turn.lock, turn.next))
  {}

  lemma RootTurnOk(l: Lock, kind: Kind, cancelled: bool, setup: Setup)
    requires LockInv(l) && (kind == InitDir || kind == OpenDir)
    ensures var turn := RootTurn(l, kind, cancelled, setup);
      && LockInv(turn.lock) && turn.lock.clearing == l.clearing && turn.lock.activeOps == l.activeOps
      && (turn.lock == l || (!l.clearing && l.root.None?))
      && (turn.next.Done? || (turn.next == AtGate(kind, true) && ActorInv(turn.lock, turn.next)))
  {}

  lemma PassKeeps(s: State, a: nat, cancelled: bool, setup: Setup, later: bool)
    requires Inv(s) && Enabled(s, PassGate(a, cancelled, setup, later))
    ensures Inv(Apply(s, PassGate(a, cancelled, setup, later)))
  {
    var kind := s.actors[a].kind;
    var turn := GateTurn(s.lock, kind, cancelled, setup, later);
    match kind
    case Op =>
      OpTurnOk(s.lock, cancelled);
      hide Inv, LockInv;
      GateKeeps(s, a, turn);
    case ClearDir =>
      assert LockInv(s.lock);
      hide Inv, LockInv;
      if cancelled || s.lock.clearing || s.lock.cleared {
        GateKeeps(s, a, turn);
      } else {
        ClearGateKeeps(s, a, later);
      }
    case _ =>
      RootTurnOk(s.lock, kind, cancelled, setup);
      hide Inv, LockInv;
      GateKeeps(s, a, turn);
  }

  lemma EnterKeeps(s: State, a: nat, kind: Kind)
    requires Inv(s) && a !in s.actors
    ensures Inv(Apply(s, Enter(a, kind)))
  {
    SettleCounts(s.actors, a, AtGate(kind, false));
    assert a !in Holders(s.actors) && a !in Clears(s.actors);
  }

  lemma DrainKeeps(s: State, a: nat, cancelled: bool)
    requires Inv(s) && Enabled(s, Drain(a, cancelled))
    ensures Inv(Apply(s, Drain(a, cancelled)))
  {
    var turn := DrainTurn(s.lock, cancelled);
    var actors := if turn.wakes then Woken(s.actors) else s.actors;
    WokenSame(s.actors);
    OneClear(s.lock, s.actors, a);
    SettleCounts(actors, a, turn.next);
    assert a !in Holders(s.actors);
  }

  lemma ReleaseKeeps(s: State, a: nat)
    requires Inv(s) && Enabled(s, Release(a))
    ensures Inv(Apply(s, Release(a)))
  {
    hide LockInv, CountInv, ActorInv;
    var turn := ReleaseTurn(s.lock);
    var actors := if turn.wakes then Woken(s.actors) else s.actors;
    ReleaseCounts(s.lock, s.actors, a);
    forall b | b in s.actors && b != a ensures ActorInv(turn.lock, actors[b]) { ReleaseOthers(s.lock, s.actors[b]); }
    ReleaseLock(s.lock);
  }

  lemma ReleaseLock(l: Lock)
    requires LockInv(l)
    ensures LockInv(ReleaseTurn(l).lock)
  {}

  lemma ReleaseCounts(l: Lock, actors: map<nat, Actor>, a: nat)
    requires CountInv(l, actors) && a in actors && actors[a].Holding?
    ensures l.activeOps > 0
    ensures CountInv(ReleaseTurn(l).lock, actors - {a}) && CountInv(ReleaseTurn(l).lock, Woken(actors) - {a})
  {
    assert a in Holders(actors) && a !in Clears(actors);
    WokenSame(actors);
    SettleCounts(actors, a, Done(Success));
    SettleCounts(Woken(actors), a, Done(Success));
    hide Holders, Clears, Woken;
  }

  /** What the others see of a release: one operation fewer, and nobody asleep once there is none. */
  lemma ReleaseOthers(l: Lock, x: Actor)
    requires ActorInv(l, x) && l.activeOps > 0
    ensures ActorInv(ReleaseTurn(l).lock, if l.activeOps == 1 then Awake(x) else x)
  {}

  lemma FinishKeeps(s: State, a: nat, ok: bool)
    requires Inv(s) && Enabled(s, Finish(a, ok))
    ensures Inv(Apply(s, Finish(a, ok)))
  {
    var turn := FinishTurn(s.lock, ok);
    WokenSame(s.actors);
    OneClear(s.lock, s.actors, a);
    SettleCounts(Woken(s.actors), a, turn.next);
    NoHolders(s.actors);
    forall b | b in s.actors && b != a ensures s.actors[b].AtGate? { assert b !in Clears(s.actors); }
  }

  lemma StepKeeps(s: State, t: Step)
    requires Inv(s) && Enabled(s, t)
    ensures Inv(Apply(s, t))
  {
    match t
    case Enter(a, kind) => EnterKeeps(s, a, kind);
    case PassGate(a, cancelled, setup, later) => PassKeeps(s, a, cancelled, setup, later);
    case Drain(a, cancelled) => DrainKeeps(s, a, cancelled);
    case Release(a) => ReleaseKeeps(s, a);
    case Finish(a, ok) => FinishKeeps(s, a, ok);
    case ContextEnds => WokenInv(s.lock, s.actors);
  }

  ghost predicate IsRun(states: seq<State>, steps: seq<Step>) {
    && |states| == |steps| + 1
    && states[0] == State(FRESH, map[])
    && forall i :: 0 <= i < |steps| ==> Enabled(states[i], steps[i]) && states[i + 1] == Apply(states[i], steps[i])
  }

  lemma {:induction false} RunInv(states: seq<State>, steps: seq<Step>, n: nat)
    requires IsRun(states, steps) && n < |states|
    ensures Inv(states[n])
  {
    if n > 0 {
      RunInv(states, steps, n - 1);
      StepKeeps(states[n - 1], steps[n - 1]);
    } else {
      assert Holders(states[0].actors) == {} && Clears(states[0].actors) == {};
    }
  }

  /**
   While a Clear removes files no operation is active, and every other call stands before the gate; a call
   before the gate that takes its turn now only goes to sleep or gives up.
   */
  lemma ClearExcludes(states: seq<State>, steps: seq<Step>, n: nat, a: nat)
    requires IsRun(states, steps) && n < |states| && a in states[n].actors && states[n].actors[a].Removing?
    ensures states[n].lock.activeOps == 0
    ensures forall b :: b in states[n].actors && b != a ==> states[n].actors[b].AtGate?
    ensures forall kind, cancelled, setup, later ::
      var turn := GateTurn(states[n].lock, kind, cancelled, setup, later);
      turn.lock == states[n].lock && turn.next == if cancelled then Done(Cancelled) else AtGate(kind, true)
  {
    RunInv(states, steps, n);
    var s := states[n];
    OneClear(s.lock, s.actors, a);
    NoHolders(s.actors);
    forall b | b in s.actors && b != a ensures s.actors[b].AtGate? { assert b !in Clears(s.actors); }
  }

  /** A root handed to an operation is the current one, and open, until the operation releases it. */
  lemma HeldRootIsOpen(states: seq<State>, steps: seq<Step>, n: nat, a: nat)
    requires IsRun(states, steps) && n < |states| && a in states[n].actors && states[n].actors[a].Holding?
    ensures states[n].lock.root == Some(states[n].actors[a].handle) && states[n].actors[a].handle !in states[n].lock.closed
    ensures states[n].lock.initialized && !states[n].lock.cleared
  {
    RunInv(states, steps, n);
    assert ActorInv(states[n].lock, states[n].actors[a]);
  }

  /** No handle leaks: every one ever opened is the current root or closed. */
  lemma NoHandleLeaks(states: seq<State>, steps: seq<Step>, n: nat, h: Handle)
    requires IsRun(states, steps) && n < |states|
    ensures h < states[n].lock.nextHandle <==> h in states[n].lock.closed || states[n].lock.root == Some(h)
    ensures states[n].lock.initialized <==> states[n].lock.root.Some?
  {
    RunInv(states, steps, n);
  }

  /** A cleared driver stays cleared, and never has a root or an operation again. */
  lemma {:induction false} ClearedForGood(states: seq<State>, steps: seq<Step>, i: nat, j: nat)
    requires IsRun(states, steps) && i <= j < |states| && states[i].lock.cleared
    ensures states[j].lock.cleared && states[j].lock.root.None? && states[j].lock.activeOps == 0
    decreases j
  {
    RunInv(states, steps, j);
    if i < j {
      ClearedForGood(states, steps, i, j - 1);
    }
    assert states[j].lock.cleared;
    forall a | a in states[j].actors ensures !states[j].actors[a].Holding? {
      assert ActorInv(states[j].lock, states[j].actors[a]);
    }
    assert Holders(states[j].actors) == {};
  }

  /** The calls never all sleep: whenever some call is inside, one of them can take a step of its own. */
  lemma NobodyIsStuck(states: seq<State>, steps: seq<Step>, n: nat) returns (t: Step)
    requires IsRun(states, steps) && n < |states| && states[n].actors != map[]
    ensures Enabled(states[n], t) && !t.Enter? && !t.ContextEnds?
  {
    RunInv(states, steps, n);
    var s := states[n];
    var a :| a in s.actors;
    if s.actors[a].AtGate? && s.actors[a].asleep {
      assert Clears(s.actors) != {};
      a :| a in Clears(s.actors);
    }
    if s.actors[a].Draining? && s.actors[a].asleep {
      assert ActorInv(s.lock, s.actors[a]);
      assert Holders(s.actors) != {};
      a :| a in Holders(s.actors);
    }
    t := match s.actors[a]
      case AtGate(_, _) => PassGate(a, false, NoHandle, false)
      case Holding(_) => Release(a)
      case Draining(_) => Drain(a, false)
      case _ => Finish(a, true);
  }

  /** An operation that takes its turn while the gate is open gets the root exactly when there is one. */
  lemma OperationBegins(states: seq<State>, steps: seq<Step>, n: nat, a: nat, setup: Setup, later: bool)
    requires IsRun(states, steps) && n < |steps| && steps[n] == PassGate(a, false, setup, later)
    requires a in states[n].actors && states[n].actors[a] == AtGate(Op, false) && !states[n].lock.clearing
    ensures states[n].lock.root.Some? <==> a in states[n + 1].actors
    ensures a in states[n + 1].actors ==>
      && states[n + 1].actors[a] == Holding(states[n].lock.root.value)
      && states[n + 1].lock == states[n].lock.(activeOps := states[n].lock.activeOps + 1)
  {
    RunInv(states, steps, n);
  }

  /** A Clear that finds the gate open waits for the operations, and for nothing else, before it removes files. */
  lemma ClearBegins(states: seq<State>, steps: seq<Step>, n: nat, a: nat, setup: Setup)
    requires IsRun(states, steps) && n < |steps| && steps[n] == PassGate(a, false, setup, false)
    requires a in states[n].actors && states[n].actors[a] == AtGate(ClearDir, false) && !states[n].lock.clearing
    ensures a in states[n + 1].actors <==> !states[n].lock.cleared
    ensures a in states[n + 1].actors ==>
      && states[n + 1].lock == states[n].lock.(clearing := true)
      && states[n + 1].actors[a] ==
         if exists b :: b in states[n].actors && states[n].actors[b].Holding? then Draining(true) else Removing(states[n].lock.root)
  {
    RunInv(states, steps, n);
    var s := states[n];
    if b :| b in s.actors && s.actors[b].Holding? {
      assert b in Holders(s.actors);
    } else {
      assert Holders(s.actors) == {};
    }
  }

  /** An Init or Open whose set-up goes well publishes the new handle exactly when the driver is neither initialized nor cleared. */
  lemma RootIsPublished(states: seq<State>, steps: seq<Step>, n: nat, a: nat, kind: Kind, later: bool)
    requires IsRun(states, steps) && n < |steps| && steps[n] == PassGate(a, false, Opened, later) && (kind == InitDir || kind == OpenDir)
    requires a in states[n].actors && states[n].actors[a] == AtGate(kind, false) && !states[n].lock.clearing
    ensures var l := states[n].lock;
      states[n + 1].lock ==
        if l.initialized || l.cleared then l else l.(initialized := true, root := Some(l.nextHandle), nextHandle := l.nextHandle + 1)
    ensures a !in states[n + 1].actors
  {}

  // ----- the driver's fields -----

  /** The fields of the driver; each method is the turn of one call under the mutex. */
  class Ops {
    var clearing: bool
    var cleared: bool
    var initialized: bool
    var activeOps: int
    var root: Option<Handle>
    ghost var nextHandle: nat
    ghost var closed: set<Handle>

    ghost function View(): Lock
      reads this
    {
      Lock(clearing, cleared, initialized, activeOps, root, nextHandle, closed)
    }

    constructor ()
      ensures View() == FRESH
    {
      clearing, cleared, initialized, activeOps, root := false, false, false, 0, None;
      nextHandle, closed := 0, {};
    }

    method BeginOp(cancelled: bool) returns (next: Actor)
      modifies this
      ensures Turn(View(), next, false) == OpTurn(old(View()), cancelled)
      ensures next.Holding? <==> !cancelled && !old(clearing) && !old(cleared) && old(initialized) && old(root).Some?
      ensures next.Holding? ==> old(root) == Some(next.handle)
      ensures next == Done(Cancelled) <==> cancelled
      ensures next == AtGate(Op, true) <==> !cancelled && old(clearing)
      ensures next == Done(WasCleared) <==> !cancelled && !old(clearing) && old(cleared)
      ensures next == Done(NotInitialized) <==> !cancelled && !old(clearing) && !old(cleared) && (!old(initialized) || old(root).None?)
      ensures activeOps == old(activeOps) + if next.Holding? then 1 else 0
      ensures clearing == old(clearing) && cleared == old(cleared) && initialized == old(initialized) && root == old(root) && closed == old(closed)
    {
      if cancelled { return Done(Cancelled); }
      if clearing { return AtGate(Op, true); }
      if cleared { return Done(WasCleared); }
      if !initialized || root.None? { return Done(NotInitialized); }
      activeOps := activeOps + 1;
      next := Holding(root.value);
    }

    method Release() returns (wakes: bool)
      modifies this
      ensures Turn(View(), Done(Success), wakes) == ReleaseTurn(old(View()))
      ensures activeOps == old(activeOps) - 1 && (wakes <==> activeOps == 0)
      ensures clearing == old(clearing) && cleared == old(cleared) && initialized == old(initialized) && root == old(root) && closed == old(closed)
    {
      activeOps := activeOps - 1;
      wakes := activeOps == 0;
    }

    /** setRootLocked, on a handle the caller has just opened. */
    method SetRootLocked(handle: Handle, cancelled: bool) returns (next: Actor)
      requires !clearing && handle == nextHandle
      modifies this
      ensures Turn(View(), next, false) == PublishTurn(old(View()), cancelled)
      ensures !cancelled && !old(cleared) && !old(initialized) ==> root == Some(handle) && initialized && closed == old(closed)
      ensures cancelled || old(cleared) || old(initialized) ==>
        closed == old(closed) + {handle} && root == old(root) && initialized == old(initialized)
      ensures next == Done(if cancelled then Cancelled else if old(cleared) then WasCleared else Success)
      ensures clearing == old(clearing) && cleared == old(cleared) && activeOps == old(activeOps)
    {
      nextHandle := nextHandle + 1;
      if cancelled || cleared || initialized {
        closed := closed + {handle};
        return Done(if cancelled then Cancelled else if cleared then WasCleared else Success);
      }
      root := Some(handle);
      initialized := true;
      next := Done(Success);
    }

    /** handle is what opening the root gave, when nothing before it failed. */
    method InitOrOpen(kind: Kind, cancelled: bool, handle: Option<Handle>, cancelledLater: bool) returns (next: Actor)
      requires kind == InitDir || kind == OpenDir
      requires handle.Some? ==> handle.value == nextHandle
      modifies this
      ensures Turn(View(), next, false) ==
              RootTurn(old(View()), kind, cancelled, if handle.None? then NoHandle else if cancelledLater then TooLate else Opened)
      ensures next == Done(AlreadyInitialized) <==> kind == InitDir && !cancelled && !old(clearing) && !old(cleared) && old(initialized)
      ensures next == AtGate(kind, true) <==> !cancelled && old(clearing)
      ensures next == Done(WasCleared) <==> !cancelled && !old(clearing) && old(cleared)
      ensures next == Done(FileError) <==> !cancelled && !old(clearing) && !old(cleared) && !old(initialized) && handle.None?
      ensures next == Done(Success) <==>
        && !cancelled && !old(clearing) && !old(cleared)
        && if old(initialized) then kind == OpenDir else handle.Some? && !cancelledLater
      ensures root == if next == Done(Success) && !old(initialized) then handle else old(root)
      ensures initialized <==> old(initialized) || next == Done(Success)
      ensures clearing == old(clearing) && cleared == old(cleared) && activeOps == old(activeOps)
    {
      if cancelled { return Done(Cancelled); }
      if clearing { return AtGate(kind, true); }
      if cleared { return Done(WasCleared); }
      if initialized { return Done(if kind == InitDir then AlreadyInitialized else Success); }
      if handle.None? { return Done(FileError); }
      next := SetRootLocked(handle.value, cancelledLater);
    }

    method DrainOrAbort(cancelled: bool) returns (next: Actor, wakes: bool)
      modifies this
      ensures Turn(View(), next, wakes) == DrainTurn(old(View()), cancelled)
      ensures next == Removing(root) <==> !cancelled && activeOps <= 0
      ensures next == Draining(true) <==> !cancelled && activeOps > 0
      ensures next == Done(Cancelled) <==> cancelled
      ensures (wakes <==> cancelled) && clearing == if cancelled then false else old(clearing)
      ensures activeOps == old(activeOps) && cleared == old(cleared) && initialized == old(initialized) && root == old(root) && closed == old(closed)
    {
      if cancelled {
        clearing := false;
        return Done(Cancelled), true;
      }
      if activeOps > 0 { return Draining(true), false; }
      next, wakes := Removing(root), false;
    }

    method StartClear(cancelled: bool, cancelledLater: bool) returns (next: Actor, wakes: bool)
      modifies this
      ensures Turn(View(), next, wakes) == ClearTurn(old(View()), cancelled, cancelledLater)
      ensures next == Done(Success) <==> !cancelled && !old(clearing) && old(cleared)
      ensures next == AtGate(ClearDir, true) <==> !cancelled && old(clearing)
      ensures next.Removing? || next.Draining? <==> !cancelled && !old(clearing) && !old(cleared) && !cancelledLater
      ensures next == Removing(root) || next == Draining(true) || next == Done(Success) || next == Done(Cancelled) || next == AtGate(ClearDir, true)
      ensures next.Draining? ==> activeOps > 0
      ensures next.Removing? ==> activeOps <= 0
      ensures clearing <==> old(clearing) || next.Removing? || next.Draining?
      ensures wakes <==> !cancelled && !old(clearing) && !old(cleared) && cancelledLater
      ensures activeOps == old(activeOps) && cleared == old(cleared) && initialized == old(initialized) && root == old(root) && closed == old(closed)
    {
      if cancelled { return Done(Cancelled), false; }
      if clearing { return AtGate(ClearDir, true), false; }
      if cleared { return Done(Success), false; }
      clearing := true;
      next, wakes := DrainOrAbort(cancelledLater);
    }

    method FinishClear(ok: bool) returns (next: Actor, wakes: bool)
      modifies this
      ensures Turn(View(), next, wakes) == FinishTurn(old(View()), ok)
      ensures root.None? && !initialized && !clearing && wakes
      ensures (cleared <==> old(cleared) || ok) && next == Done(if ok then Success else FileError)
      ensures closed == old(closed) + (if old(root).Some? then {old(root).value} else {})
      ensures activeOps == old(activeOps)
    {
      if root.Some? { closed := closed + {root.value}; }
      root := None;
      initialized := false;
      if ok { cleared := true; }
      clearing := false;
      next, wakes := Done(if ok then Success else FileError), true;
    }
  }
}
