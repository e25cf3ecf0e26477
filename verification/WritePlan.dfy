/** The plan of what a plugin's files are written to, and its execution. */
module WritePlan {
  import opened Common
  import opened Traces
  import opened Layout
  import Insertion

  /** One visit of the walk; a file whose mode cannot be read has none. */
  datatype Walked = Broken | Directory | File(path: string, executable: Option<bool>)

  datatype PlanError = WalkError | Misplaced(error: LayoutError) | ModeError

  /** Executable files are written with mode 0755, all others with 0644. */
  datatype Plan = Plan(source: string, target: string, executable: bool)

  // ----- the order of a plan -----

  /** Code point order, which is the byte order of UTF-8. */
  predicate Before(a: string, b: string) {
    b != "" && (a == "" || a[0] < b[0] || (a[0] == b[0] && Before(a[1..], b[1..])))
  }

  lemma {:induction false} BeforeTotal(a: string, b: string)
    ensures Before(a, b) || Before(b, a) <==> a != b
    ensures !(Before(a, b) && Before(b, a))
  {
    if a != "" && b != "" {
      BeforeTotal(a[1..], b[1..]);
      assert a == [a[0]] + a[1..] && b == [b[0]] + b[1..];
    }
  }

  lemma {:induction false} BeforeTransitive(a: string, b: string, c: string)
    requires Before(a, b) && Before(b, c)
    ensures Before(a, c)
  {
    if a != "" && a[0] == b[0] && b[0] == c[0] { BeforeTransitive(a[1..], b[1..], c[1..]); }
  }

  /** The order by characters: a stops inside b, or has the smaller character where they first differ. */
  lemma {:induction false} BeforeIff(a: string, b: string)
    ensures Before(a, b) <==> exists n: nat :: n <= |a| && n < |b| && a[..n] == b[..n] && (n == |a| || a[n] < b[n])
  {
    if a != "" && b != "" && a[0] == b[0] {
      BeforeIff(a[1..], b[1..]);
      if n: nat :| n <= |a[1..]| && n < |b[1..]| && a[1..][..n] == b[1..][..n] && (n == |a[1..]| || a[1..][n] < b[1..][n]) {
        assert a[..n + 1] == [a[0]] + a[1..][..n] && b[..n + 1] == [b[0]] + b[1..][..n];
      }
      if n: nat :| n <= |a| && n < |b| && a[..n] == b[..n] && (n == |a| || a[n] < b[n]) {
        assert a[1..][..n - 1] == a[..n][1..] && b[1..][..n - 1] == b[..n][1..];
      }
    } else {
      assert b != "" ==> a[..0] == b[..0];
    }
  }

  /** The manifest comes first, the others by their source. */
  predicate Ahead(a: Plan, b: Plan) {
    if a.source == MANIFEST then b.source != MANIFEST
    else b.source != MANIFEST && Before(a.source, b.source)
  }

  lemma AheadIs(a: Plan, b: Plan)
    ensures Ahead(a, b) <==>
      && b.source != "manifest.toml"
      && (a.source == "manifest.toml" ||
          exists n: nat :: n <= |a.source| && n < |b.source| && a.source[..n] == b.source[..n] && (n == |a.source| || a.source[n] < b.source[n]))
  {
    BeforeIff(a.source, b.source);
    hide Before;
  }

  lemma AheadTotal(a: Plan, b: Plan)
    ensures Ahead(a, b) || Ahead(b, a) <==> a.source != b.source
    ensures !(Ahead(a, b) && Ahead(b, a))
  {
    BeforeTotal(a.source, b.source);
  }

  lemma AheadTransitive(a: Plan, b: Plan, c: Plan)
    requires Ahead(a, b) && Ahead(b, c)
    ensures Ahead(a, c)
  {
    if a.source != MANIFEST { BeforeTransitive(a.source, b.source, c.source); }
  }

  predicate InOrder(plan: seq<Plan>) {
    forall i, j :: 0 <= i < j < |plan| ==> Ahead(plan[i], plan[j])
  }

  predicate SourcesDistinct(plan: seq<Plan>) {
    forall i, j :: 0 <= i < j < |plan| ==> plan[i].source != plan[j].source
  }

  lemma InsertKeepsOrder(s: seq<Plan>, at: nat, x: Plan)
    requires InOrder(s) && at <= |s| && forall k :: 0 <= k < |s| ==> s[k].source != x.source
    requires (forall k :: 0 <= k < at ==> Ahead(s[k], x)) && (at < |s| ==> !Ahead(s[at], x))
    ensures InOrder(s[..at] + [x] + s[at..])
  {
    hide Ahead;
    forall a, b, c | Ahead(a, b) && Ahead(b, c) ensures Ahead(a, c) { AheadTransitive(a, b, c); }
    forall k | 0 <= k < |s| ensures Ahead(s[k], x) || Ahead(x, s[k]) { AheadTotal(s[k], x); }
    Insertion.KeepsOrder(s, at, x, Ahead);
  }

  /** The stable sort, on plans with different sources. */
  method SortPlans(plan: seq<Plan>) returns (s: seq<Plan>)
    requires SourcesDistinct(plan)
    ensures InOrder(s) && |s| == |plan| && forall p :: p in s <==> p in plan
  {
    hide Ahead;
    s := [];
    for n := 0 to |plan|
      invariant InOrder(s) && |s| == n && forall p :: p in s <==> p in plan[..n]
    {
      var x := plan[n];
      var at := 0;
      while at < |s| && Ahead(s[at], x)
        invariant at <= |s| && forall k :: 0 <= k < at ==> Ahead(s[k], x)
      {
        at := at + 1;
      }
      forall k | 0 <= k < |s| ensures s[k].source != x.source { assert s[k] in plan[..n]; }
      InsertKeepsOrder(s, at, x);
      Insertion.KeepsContents(plan, n, s, at);
      s := s[..at] + [x] + s[at..];
    }
    assert plan[..|plan|] == plan;
  }

  lemma SameHead(a: seq<Plan>, b: seq<Plan>)
    requires InOrder(a) && InOrder(b) && |a| == |b| > 0 && forall p :: p in a <==> p in b
    ensures a[0] == b[0]
  {
    hide Ahead;
    assert a[0] in a && b[0] in b;
    assert a[0] in b && b[0] in a;
    AheadTotal(a[0], b[0]);
    assert forall k :: 0 < k < |a| ==> Ahead(a[0], a[k]);
    assert forall k :: 0 < k < |b| ==> Ahead(b[0], b[k]);
    var i :| 0 <= i < |b| && b[i] == a[0];
    var j :| 0 <= j < |a| && a[j] == b[0];
  }

  /** Two lists in order of the same plans are the same list. */
  lemma {:induction false} OrderIsUnique(a: seq<Plan>, b: seq<Plan>)
    requires InOrder(a) && InOrder(b) && |a| == |b| && forall p :: p in a <==> p in b
    ensures a == b
  {
    hide Ahead;
    if a != [] {
      SameHead(a, b);
      forall p ensures p in a[1..] <==> p in b[1..] { TailHas(a, p); TailHas(b, p); }
      OrderIsUnique(a[1..], b[1..]);
    }
  }

  lemma TailHas(s: seq<Plan>, p: Plan)
    requires InOrder(s) && s != []
    ensures p in s[1..] <==> p in s && p != s[0]
  {
    hide Ahead;
    assert s == [s[0]] + s[1..];
    forall k | 0 < k < |s| ensures s[k] != s[0] { AheadTotal(s[0], s[k]); }
  }

  // ----- the plan -----

  /** What the walk asks of one visit. */
  predicate Fits(base: string, e: Walked) {
    match e
    case Broken => false
    case Directory => true
    case File(path, executable) => MapPath(base, path).Ok? && executable.Some?
  }

  function Entry(base: string, e: Walked): seq<Plan> {
    if e.File? && Fits(base, e) then [Plan(e.path, MapPath(base, e.path).value, e.executable.value)] else []
  }

  /** One entry for each file, in the order of the walk. */
  function Entries(base: string, walk: seq<Walked>): seq<Plan> {
    if walk == [] then [] else Entries(base, walk[..|walk| - 1]) + Entry(base, walk[|walk| - 1])
  }

  predicate NoClash(plan: seq<Plan>) {
    forall k, l :: 0 <= k < l < |plan| ==> plan[k].target != plan[l].target
  }

  /** Every visit fits and no two files share a target. */
  predicate WalkFits(base: string, walk: seq<Walked>) {
    (forall i :: 0 <= i < |walk| ==> Fits(base, walk[i])) && NoClash(Entries(base, walk))
  }

  /** Why the walk ends at this visit, after the files already planned. */
  function VisitError(base: string, e: Walked, planned: seq<Plan>): PlanError {
    match e
    case File(path, _) =>
      var target := MapPath(base, path);
      if target.Err? then Misplaced(target.error)
      else if exists k :: 0 <= k < |planned| && planned[k].target == target.value then Misplaced(Collision)
      else ModeError
    case _ => WalkError
  }

  /** The first visit that does not fit, or whose target is taken, gives the error. */
  predicate FirstMisfit(base: string, walk: seq<Walked>, e: PlanError) {
    exists n :: 0 <= n < |walk|
      && WalkFits(base, walk[..n]) && !WalkFits(base, walk[..n + 1])
      && e == VisitError(base, walk[n], Entries(base, walk[..n]))
  }

  lemma MisfitFound(base: string, walk: seq<Walked>, n: nat, e: PlanError)
    requires n < |walk| && WalkFits(base, walk[..n])
    requires !Fits(base, walk[n]) || !NoClash(Entries(base, walk[..n + 1]))
    requires e == VisitError(base, walk[n], Entries(base, walk[..n]))
    ensures FirstMisfit(base, walk, e)
  {
    assert walk[..n + 1][n] == walk[n];
    hide Fits, NoClash, Entries, VisitError;
  }

  lemma EntriesNext(base: string, walk: seq<Walked>, n: nat)
    requires n < |walk|
    ensures Entries(base, walk[..n + 1]) == Entries(base, walk[..n]) + Entry(base, walk[n])
  {
    hide Entry;
    assert walk[..n + 1][..n] == walk[..n];
  }

  /** A clash among the first files stays one. */
  lemma {:induction false} EntriesGrow(base: string, walk: seq<Walked>, n: nat)
    requires n <= |walk|
    ensures Entries(base, walk[..n]) <= Entries(base, walk)
    decreases |walk|
  {
    hide Entry;
    if n < |walk| {
      EntriesGrow(base, walk[..|walk| - 1], n);
      assert walk[..|walk| - 1][..n] == walk[..n];
    } else {
      assert walk[..n] == walk;
    }
  }

  lemma {:induction false} EntriesArePlaced(base: string, walk: seq<Walked>, k: nat)
    requires k < |Entries(base, walk)|
    ensures var p := Entries(base, walk)[k]; MapPath(base, p.source) == Ok(p.target)
  {
    hide MapPath;
    var before := Entries(base, walk[..|walk| - 1]);
    if k < |before| { EntriesArePlaced(base, walk[..|walk| - 1], k); }
  }

  /** The entries are the files of the walk, each with its target and its mode. */
  lemma {:induction false} EntriesAre(base: string, walk: seq<Walked>, p: Plan)
    requires forall i :: 0 <= i < |walk| ==> Fits(base, walk[i])
    ensures p in Entries(base, walk) <==> File(p.source, Some(p.executable)) in walk && MapPath(base, p.source) == Ok(p.target)
    decreases |walk|
  {
    hide MapPath;
    if walk != [] {
      var front, last := walk[..|walk| - 1], walk[|walk| - 1];
      EntriesAre(base, front, p);
      assert walk == front + [last];
    }
  }

  /** Files with different targets have different sources. */
  lemma DistinctSources(base: string, walk: seq<Walked>)
    requires NoClash(Entries(base, walk))
    ensures SourcesDistinct(Entries(base, walk))
  {
    hide MapPath, Entries;
    var plan := Entries(base, walk);
    forall k, l | 0 <= k < l < |plan| ensures plan[k].source != plan[l].source {
      EntriesArePlaced(base, walk, k);
      EntriesArePlaced(base, walk, l);
    }
  }

  lemma ClashStays(base: string, walk: seq<Walked>, n: nat)
    requires n < |walk| && !NoClash(Entries(base, walk[..n + 1]))
    ensures !WalkFits(base, walk)
  {
    EntriesGrow(base, walk, n + 1);
    hide Entries, Fits;
    var some, all := Entries(base, walk[..n + 1]), Entries(base, walk);
    var k, l :| 0 <= k < l < |some| && some[k].target == some[l].target;
    assert all[k] == some[k] && all[l] == some[l];
  }

  /** The walk: the first visit that does not fit, or whose target is taken, ends it. */
  method CollectPlan(base: string, walk: seq<Walked>) returns (r: Result<seq<Plan>, PlanError>)
    ensures r.Ok? <==> WalkFits(base, walk)
    ensures r.Ok? ==> r.value == Entries(base, walk)
    ensures r.Err? ==> FirstMisfit(base, walk, r.error)
  {
    hide MapPath, Entries, FirstMisfit;
    var planned: seq<Plan> := [];
    var targets: map<string, string> := map[];
    EntriesOfNone(base, walk);
    for n := 0 to |walk|
      invariant planned == Entries(base, walk[..n]) && NoClash(planned)
      invariant forall i :: 0 <= i < n ==> Fits(base, walk[i])
      invariant forall k :: 0 <= k < |planned| ==> planned[k].target in targets
      invariant forall t :: t in targets ==> exists k :: 0 <= k < |planned| && planned[k].target == t
    {
      EntriesNext(base, walk, n);
      match walk[n]
      case Broken =>
        assert !Fits(base, walk[n]);
        MisfitFound(base, walk, n, WalkError);
        return Err(WalkError);
      case Directory =>
      case File(path, executable) =>
        var target := MapPath(base, path);
        if target.Err? {
          assert !Fits(base, walk[n]);
          MisfitFound(base, walk, n, Misplaced(target.error));
          return Err(Misplaced(target.error));
        }
        if target.value in targets {
          TakenClashes(base, walk, n);
          MisfitFound(base, walk, n, Misplaced(Collision));
          return Err(Misplaced(Collision));
        }
        targets := targets[target.value := path];
        if executable.None? {
          assert !Fits(base, walk[n]);
          MisfitFound(base, walk, n, ModeError);
          return Err(ModeError);
        }
        var longer := planned + [Plan(path, target.value, executable.value)];
        assert longer[|planned|].target == target.value;
        assert forall k :: 0 <= k < |planned| ==> longer[k] == planned[k];
        planned := longer;
    }
    assert walk[..|walk|] == walk;
    r := Ok(planned);
  }

  /** A file whose target is taken does not fit: it clashes, or has no mode. */
  lemma TakenClashes(base: string, walk: seq<Walked>, n: nat)
    requires n < |walk| && walk[n].File? && MapPath(base, walk[n].path).Ok?
    requires exists k :: 0 <= k < |Entries(base, walk[..n])| && Entries(base, walk[..n])[k].target == MapPath(base, walk[n].path).value
    ensures !Fits(base, walk[n]) || !NoClash(Entries(base, walk[..n + 1]))
    ensures !WalkFits(base, walk)
  {
    hide MapPath, Entries;
    EntriesNext(base, walk, n);
    if Fits(base, walk[n]) {
      var some, next := Entries(base, walk[..n]), Entries(base, walk[..n + 1]);
      var k :| 0 <= k < |some| && some[k].target == MapPath(base, walk[n].path).value;
      assert next[k].target == next[|some|].target;
      ClashStays(base, walk, n);
    }
  }

  lemma EntriesOfNone(base: string, walk: seq<Walked>)
    ensures Entries(base, walk[..0]) == []
  {}

  /** buildWritePlan: the entries of the walk, manifest first and then by source; OrderIsUnique makes that one list. */
  method BuildWritePlan(base: string, walk: seq<Walked>) returns (r: Result<seq<Plan>, PlanError>)
    ensures r.Ok? <==> WalkFits(base, walk)
    ensures r.Ok? ==> InOrder(r.value) && |r.value| == |Entries(base, walk)| && forall p :: p in r.value <==> p in Entries(base, walk)
    ensures r.Err? ==> FirstMisfit(base, walk, r.error)
  {
    hide Entries, Ahead, Fits, FirstMisfit;
    r := CollectPlan(base, walk);
    if r.Ok? {
      DistinctSources(base, walk);
      var sorted := SortPlans(r.value);
      r := Ok(sorted);
    }
  }

  // ----- applying it -----

  /** What reading one file and writing it come to. */
  datatype Transfer = Transfer(opens: bool, puts: bool, closes: bool)

  predicate Moves(t: Transfer) { t.opens && t.puts && t.closes }

  datatype Deed = OpenSource | PutTarget | CloseSource

  /** A source that was opened is closed, once, after its target was written or could not be. */
  predicate Orderly(trace: seq<Deed>) {
    trace == [] || trace == [OpenSource, CloseSource] || trace == [OpenSource, PutTarget, CloseSource]
  }

  /** Occupied stands for a plugin directory or manifest that is already there, or cannot be looked at. */
  datatype Applied = Occupied | NoPlan(error: PlanError) | Stopped(at: nat) | Placed(targets: seq<string>)

  function Targets(plan: seq<Plan>): (r: seq<string>)
    ensures |r| == |plan| && forall i :: 0 <= i < |plan| ==> r[i] == plan[i].target
  {
    seq(|plan|, i requires 0 <= i < |plan| => plan[i].target)
  }

  lemma Histories()
    ensures Orderly([]) && Orderly([OpenSource, CloseSource]) && Orderly([OpenSource, PutTarget, CloseSource])
    ensures [] + [OpenSource] + [CloseSource] == [OpenSource, CloseSource]
    ensures [] + [OpenSource] + [PutTarget] + [CloseSource] == [OpenSource, PutTarget, CloseSource]
    ensures forall t: seq<Deed> :: t + [] == t
    ensures forall i: nat :: Trace<Deed>([], i) == []
  {}

  /** One file: opened, written and closed. */
  method Move(i: nat, outcome: Transfer, before: seq<Event<Deed>>) returns (log: seq<Event<Deed>>)
    requires Trace(before, i) == []
    ensures forall j: nat :: j != i ==> Trace(log, j) == Trace(before, j)
    ensures Trace(log, i) ==
      if !outcome.opens then [] else if outcome.puts then [OpenSource, PutTarget, CloseSource] else [OpenSource, CloseSource]
  {
    hide Trace;
    Histories();
    log := before;
    if outcome.opens {
      log := Log(log, i, OpenSource);
      if outcome.puts { log := Log(log, i, PutTarget); }
      log := Log(log, i, CloseSource);
    }
  }

  /**
   Apply: nothing is opened or written unless the directory is free and the whole plan stands. Then the files go
   in the order of the plan, manifest first, up to the first that does not move.
   */
  method Apply(base: string, occupied: bool, walk: seq<Walked>, outcomes: nat -> Transfer)
    returns (r: Applied, plan: seq<Plan>, log: seq<Event<Deed>>)
    ensures r.Occupied? <==> occupied
    ensures r.NoPlan? <==> !occupied && !WalkFits(base, walk)
    ensures r.NoPlan? ==> FirstMisfit(base, walk, r.error)
    ensures r.Occupied? || r.NoPlan? ==> log == []
    ensures r.Stopped? || r.Placed? ==>
      InOrder(plan) && |plan| == |Entries(base, walk)| && forall p :: p in plan <==> p in Entries(base, walk)
    ensures r.Placed? <==>
      !occupied && WalkFits(base, walk) && forall i: nat :: i < |plan| ==> outcomes(i).opens && outcomes(i).puts && outcomes(i).closes
    ensures r.Placed? ==> r.targets == Targets(plan)
    ensures r.Stopped? ==> r.at < |plan| && !Moves(outcomes(r.at)) && forall i: nat :: i < r.at ==> Moves(outcomes(i))
    ensures forall i: nat :: Orderly(Trace(log, i))
    ensures r.Stopped? || r.Placed? ==> forall i: nat ::
      PutTarget in Trace(log, i) <==> i < |plan| && (r.Stopped? ==> i <= r.at) && outcomes(i).opens && outcomes(i).puts
  {
    hide WalkFits, FirstMisfit, Entries, InOrder, Trace, Orderly;
    Histories();
    plan, log := [], [];
    if occupied { return Occupied, plan, log; }
    var built := BuildWritePlan(base, walk);
    if built.Err? { return NoPlan(built.error), plan, log; }
    plan := built.value;
    for i := 0 to |plan|
      invariant forall k: nat :: k < i ==> Moves(outcomes(k))
      invariant forall k: nat :: Trace(log, k) == if k < i then [OpenSource, PutTarget, CloseSource] else []
    {
      log := Move(i, outcomes(i), log);
      if !Moves(outcomes(i)) { return Stopped(i), plan, log; }
    }
    r := Placed(Targets(plan));
  }
}
