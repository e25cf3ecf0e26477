/**
 Runtime configurations as values over a heap: the cycle check that lets one in, and the deep clone it guards.
 Pointers, maps and slices are references; arrays and structs are groups; a reference has one list of entries.
 */
module RuntimeConfig {
  type Ref = nat

  datatype Value =
    | Nothing
    | Scalar(text: string)
    | Refer(ref: Ref)
    | Group(parts: seq<Value>)

  /** The key of an entry is Nothing except in a map. */
  datatype Entry = Entry(key: Value, value: Value)

  /** The tag stands for the kind and type. */
  datatype Cell = Cell(tag: string, entries: seq<Entry>)

  type Heap = map<Ref, Cell>

  // ----- the graph -----

  predicate Mentions(v: Value, r: Ref) {
    match v
    case Refer(x) => x == r
    case Group(parts) => exists i :: 0 <= i < |parts| && Mentions(parts[i], r)
    case _ => false
  }

  predicate EntryMentions(e: Entry, r: Ref) { Mentions(e.key, r) || Mentions(e.value, r) }

  predicate Edge(heap: Heap, a: Ref, b: Ref) {
    a in heap && exists i :: 0 <= i < |heap[a].entries| && EntryMentions(heap[a].entries[i], b)
  }

  /** No dangling reference. */
  ghost predicate Closed(heap: Heap) { forall a, b :: Edge(heap, a, b) ==> b in heap }

  ghost predicate Known(heap: Heap, v: Value) { forall r :: Mentions(v, r) ==> r in heap }

  ghost predicate Linked(heap: Heap, p: seq<Ref>) {
    forall i :: 0 < i < |p| ==> Edge(heap, p[i - 1], p[i])
  }

  /** A walk along references that starts in root. */
  ghost predicate Trail(heap: Heap, root: Value, p: seq<Ref>) {
    Linked(heap, p) && (p != [] ==> Mentions(root, p[0]))
  }

  ghost predicate Repeats(p: seq<Ref>) {
    exists i, j :: 0 <= i < j < |p| && p[i] == p[j]
  }

  /** Some reference reachable from root lies on a cycle. */
  ghost predicate Cyclic(heap: Heap, root: Value) {
    exists p :: Trail(heap, root, p) && Repeats(p)
  }

  // ----- the search -----

  /** An order in which every reference comes after all those its cell mentions. */
  ghost predicate Topological(heap: Heap, order: seq<Ref>) {
    forall i, b :: 0 <= i < |order| && Edge(heap, order[i], b) ==> b in order[..i]
  }

  ghost function Position(order: seq<Ref>, r: Ref): (i: nat)
    requires r in order
    ensures i < |order| && order[i] == r
    ensures forall j :: 0 <= j < |order| && order[j] == r ==> i <= j
  {
    if order[0] == r then 0 else 1 + Position(order[1..], r)
  }

  lemma PositionBelow(order: seq<Ref>, r: Ref, k: nat)
    requires k <= |order| && r in order[..k]
    ensures r in order && Position(order, r) < k
  {
    var i :| 0 <= i < k && order[i] == r;
    assert Position(order, r) <= i;
  }

  lemma TopologicalGrows(heap: Heap, order: seq<Ref>, r: Ref)
    requires Topological(heap, order) && forall b :: Edge(heap, r, b) ==> b in order
    ensures Topological(heap, order + [r])
  {
    forall i, b | 0 <= i < |order + [r]| && Edge(heap, (order + [r])[i], b) ensures b in (order + [r])[..i] {
      assert (order + [r])[..i] == order[..i];
      assert order[..|order|] == order;
    }
  }

  /** Along a trail the positions only go down. */
  lemma {:induction false} TrailDescends(heap: Heap, order: seq<Ref>, root: Value, p: seq<Ref>, j: nat)
    requires Topological(heap, order) && (forall r :: Mentions(root, r) ==> r in order)
    requires Trail(heap, root, p) && j < |p|
    ensures p[j] in order
    ensures forall i :: 0 <= i < j ==> p[i] in order && Position(order, p[j]) < Position(order, p[i])
  {
    if j > 0 {
      TrailDescends(heap, order, root, p, j - 1);
      var k := Position(order, p[j - 1]);
      assert Edge(heap, p[j - 1], p[j]);
      assert p[j] in order[..k];
      PositionBelow(order, p[j], k);
    }
  }

  lemma OrderedIsAcyclic(heap: Heap, order: seq<Ref>, root: Value)
    requires Topological(heap, order) && (forall r :: Mentions(root, r) ==> r in order)
    ensures !Cyclic(heap, root)
  {
    forall p | Trail(heap, root, p) ensures !Repeats(p) {
      forall i, j | 0 <= i < j < |p| ensures p[i] != p[j] {
        TrailDescends(heap, order, root, p, j);
      }
    }
  }

  /** Every reference in v continues the trail. */
  ghost predicate Continues(heap: Heap, root: Value, trail: seq<Ref>, v: Value) {
    forall r :: Mentions(v, r) ==> Trail(heap, root, trail + [r])
  }

  lemma EntryContinues(heap: Heap, root: Value, trail: seq<Ref>, i: nat)
    requires Trail(heap, root, trail) && trail != [] && trail[|trail| - 1] in heap && Closed(heap)
    requires i < |heap[trail[|trail| - 1]].entries|
    ensures var e := heap[trail[|trail| - 1]].entries[i];
      && Continues(heap, root, trail, e.key) && Continues(heap, root, trail, e.value)
      && Known(heap, e.key) && Known(heap, e.value)
  {
    var last := trail[|trail| - 1];
    forall r | EntryMentions(heap[last].entries[i], r) ensures Trail(heap, root, trail + [r]) && r in heap {
      assert Edge(heap, last, r);
    }
  }

  /** The two sets of the search. The trail of open references and the finishing order are history. */
  class Detector {
    var visiting: set<Ref>
    var visited: set<Ref>
    ghost var trail: seq<Ref>
    ghost var order: seq<Ref>

    constructor ()
      ensures visiting == {} && visited == {} && trail == [] && order == []
    {
      visiting, visited, trail, order := {}, {}, [], [];
    }

    ghost predicate Valid(heap: Heap, root: Value)
      reads this
    {
      && (forall r :: r in visiting <==> r in trail)
      && (forall r :: r in visited <==> r in order)
      && Trail(heap, root, trail) && Topological(heap, order)
    }

    method DetectAll(heap: Heap, ghost root: Value, parts: seq<Value>) returns (found: bool)
      requires Valid(heap, root) && Closed(heap)
      requires forall i :: 0 <= i < |parts| ==> Known(heap, parts[i]) && Continues(heap, root, trail, parts[i])
      modifies this
      ensures visiting == old(visiting) && trail == old(trail)
      ensures found ==> Cyclic(heap, root)
      ensures !found ==> Valid(heap, root) && old(visited) <= visited
      ensures !found ==> forall i, r :: 0 <= i < |parts| && Mentions(parts[i], r) ==> r in visited
      decreases heap.Keys - visiting, 0, Group(parts), 0
    {
      var i := 0;
      while i < |parts|
        invariant i <= |parts|
        invariant visiting == old(visiting) && trail == old(trail)
        invariant Valid(heap, root) && old(visited) <= visited
        invariant forall k, r :: 0 <= k < i && Mentions(parts[k], r) ==> r in visited
      {
        found := Detect(heap, root, parts[i]);
        if found { return; }
        i := i + 1;
      }
      found := false;
    }

    method DetectEntries(heap: Heap, ghost root: Value, ref: Ref) returns (found: bool)
      requires Valid(heap, root) && Closed(heap) && ref in heap
      requires trail != [] && trail[|trail| - 1] == ref
      modifies this
      ensures visiting == old(visiting) && trail == old(trail)
      ensures found ==> Cyclic(heap, root)
      ensures !found ==> Valid(heap, root) && old(visited) <= visited
      ensures !found ==> forall r :: Edge(heap, ref, r) ==> r in visited
      decreases heap.Keys - visiting, 1
    {
      var entries := heap[ref].entries;
      var i := 0;
      while i < |entries|
        invariant i <= |entries|
        invariant visiting == old(visiting) && trail == old(trail)
        invariant Valid(heap, root) && old(visited) <= visited
        invariant forall k, r :: 0 <= k < i && EntryMentions(entries[k], r) ==> r in visited
      {
        EntryContinues(heap, root, trail, i);
        assert forall r :: EntryMentions(entries[i], r) ==> Edge(heap, ref, r);
        found := Detect(heap, root, entries[i].key);
        if found { return; }
        found := Detect(heap, root, entries[i].value);
        if found { return; }
        i := i + 1;
      }
      found := false;
    }

    /** The reference is open while its entries are searched, and done afterwards. */
    method Visit(heap: Heap, ghost root: Value, ref: Ref) returns (found: bool)
      requires Valid(heap, root) && Closed(heap) && ref in heap && ref !in visiting && Trail(heap, root, trail + [ref])
      modifies this
      ensures visiting == old(visiting) && trail == old(trail)
      ensures found ==> Cyclic(heap, root)
      ensures !found ==> Valid(heap, root) && old(visited) <= visited && ref in visited
      decreases heap.Keys - visiting, 0, Refer(ref), 0
    {
      hide Trail, Cyclic, Edge, Closed;
      visiting, trail := visiting + {ref}, trail + [ref];
      found := DetectEntries(heap, root, ref);
      if !found { TopologicalGrows(heap, order, ref); }
      hide Topological;
      visiting, visited := visiting - {ref}, visited + {ref};
      trail, order := trail[..|trail| - 1], order + [ref];
    }

    method Detect(heap: Heap, ghost root: Value, v: Value) returns (found: bool)
      requires Valid(heap, root) && Closed(heap) && Known(heap, v) && Continues(heap, root, trail, v)
      modifies this
      ensures visiting == old(visiting) && trail == old(trail)
      ensures found ==> Cyclic(heap, root)
      ensures !found ==> Valid(heap, root) && old(visited) <= visited
      ensures !found ==> forall r :: Mentions(v, r) ==> r in visited
      decreases heap.Keys - visiting, 0, v, 1
    {
      match v
      case Refer(ref) =>
        if ref in visiting {
          RepeatFound(heap, root, trail, ref);
          return true;
        }
        if ref in visited { return false; }
        found := Visit(heap, root, ref);
      case Group(parts) => found := DetectAll(heap, root, parts);
      case _ => found := false;
    }
  }

  lemma RepeatFound(heap: Heap, root: Value, trail: seq<Ref>, r: Ref)
    requires r in trail && Trail(heap, root, trail + [r])
    ensures Cyclic(heap, root)
  {
    var i :| 0 <= i < |trail| && trail[i] == r;
    var p := trail + [r];
    assert p[i] == p[|trail|];
    assert Repeats(p);
  }

  /** hasRuntimeConfigCycle: the check is exact. */
  method HasCycle(heap: Heap, config: Value) returns (found: bool)
    requires Closed(heap) && Known(heap, config)
    ensures found <==> Cyclic(heap, config)
  {
    var d := new Detector();
    assert forall r :: Mentions(config, r) ==> Trail(heap, config, [] + [r]);
    found := d.Detect(heap, config, config);
    if !found { OrderedIsAcyclic(heap, d.order, config); }
  }

  // ----- what a value denotes -----

  /** Keys stay as they are: a clone shares them with its source. */
  datatype Tree =
    | Blank
    | Text(text: string)
    | Parts(parts: seq<Tree>)
    | Node(tag: string, keys: seq<Value>, kids: seq<Tree>)

  ghost predicate Unfolds(heap: Heap, v: Value, t: Tree)
    decreases t
  {
    match v
    case Nothing => t == Blank
    case Scalar(text) => t == Text(text)
    case Group(parts) =>
      t.Parts? && |t.parts| == |parts| && forall i :: 0 <= i < |parts| ==> Unfolds(heap, parts[i], t.parts[i])
    case Refer(ref) =>
      && ref in heap && t.Node? && t.tag == heap[ref].tag
      && |t.keys| == |t.kids| == |heap[ref].entries|
      && forall i :: 0 <= i < |t.kids| ==> t.keys[i] == heap[ref].entries[i].key && Unfolds(heap, heap[ref].entries[i].value, t.kids[i])
  }

  ghost predicate Extends(a: Heap, b: Heap) {
    forall r :: r in a ==> r in b && b[r] == a[r]
  }

  lemma {:induction false} UnfoldsFrame(a: Heap, b: Heap, v: Value, t: Tree)
    requires Extends(a, b) && Unfolds(a, v, t)
    ensures Unfolds(b, v, t)
    decreases t
  {
    match v
    case Group(parts) =>
      forall i | 0 <= i < |parts| ensures Unfolds(b, parts[i], t.parts[i]) { UnfoldsFrame(a, b, parts[i], t.parts[i]); }
    case Refer(ref) =>
      forall i | 0 <= i < |t.kids| ensures Unfolds(b, b[ref].entries[i].value, t.kids[i]) {
        UnfoldsFrame(a, b, a[ref].entries[i].value, t.kids[i]);
      }
    case _ =>
  }

  lemma {:induction false} UnfoldsUnique(heap: Heap, v: Value, t: Tree, u: Tree)
    requires Unfolds(heap, v, t) && Unfolds(heap, v, u)
    ensures t == u
    decreases t
  {
    match v
    case Group(parts) =>
      forall i | 0 <= i < |parts| ensures t.parts[i] == u.parts[i] { UnfoldsUnique(heap, parts[i], t.parts[i], u.parts[i]); }
    case Refer(ref) =>
      forall i | 0 <= i < |t.kids| ensures t.kids[i] == u.kids[i] && t.keys[i] == u.keys[i] {
        UnfoldsUnique(heap, heap[ref].entries[i].value, t.kids[i], u.kids[i]);
      }
      assert t.keys == u.keys && t.kids == u.kids;
    case _ =>
  }

  ghost function Open(trail: seq<Ref>): set<Ref> { set r | r in trail }

  lemma PartTrees(heap: Heap, root: Value, trail: seq<Ref>, parts: seq<Value>) returns (ts: seq<Tree>)
    requires Closed(heap) && !Cyclic(heap, root)
    requires forall i :: 0 <= i < |parts| ==> Known(heap, parts[i]) && Continues(heap, root, trail, parts[i])
    ensures |ts| == |parts| && forall i :: 0 <= i < |parts| ==> Unfolds(heap, parts[i], ts[i])
    decreases heap.Keys - Open(trail), 0, Group(parts), 0
  {
    ts := [];
    while |ts| < |parts|
      invariant |ts| <= |parts| && forall i :: 0 <= i < |ts| ==> Unfolds(heap, parts[i], ts[i])
    {
      var t := TreeOf(heap, root, trail, parts[|ts|]);
      ts := ts + [t];
    }
  }

  lemma EntryTrees(heap: Heap, root: Value, trail: seq<Ref>) returns (ts: seq<Tree>)
    requires Closed(heap) && !Cyclic(heap, root)
    requires trail != [] && trail[|trail| - 1] in heap && Trail(heap, root, trail)
    ensures var entries := heap[trail[|trail| - 1]].entries;
      |ts| == |entries| && forall i :: 0 <= i < |entries| ==> Unfolds(heap, entries[i].value, ts[i])
    decreases heap.Keys - Open(trail), 1
  {
    var entries := heap[trail[|trail| - 1]].entries;
    ts := [];
    while |ts| < |entries|
      invariant |ts| <= |entries| && forall i :: 0 <= i < |ts| ==> Unfolds(heap, entries[i].value, ts[i])
    {
      EntryContinues(heap, root, trail, |ts|);
      var t := TreeOf(heap, root, trail, entries[|ts|].value);
      ts := ts + [t];
    }
  }

  /** A value that is not cyclic denotes a finite tree: no trail visits a reference twice. */
  lemma TreeOf(heap: Heap, root: Value, trail: seq<Ref>, v: Value) returns (t: Tree)
    requires Closed(heap) && !Cyclic(heap, root) && Known(heap, v) && Continues(heap, root, trail, v)
    ensures Unfolds(heap, v, t)
    decreases heap.Keys - Open(trail), 0, v, 1
  {
    match v
    case Nothing => t := Blank;
    case Scalar(text) => t := Text(text);
    case Group(parts) =>
      var ts := PartTrees(heap, root, trail, parts);
      t := Parts(ts);
    case Refer(ref) =>
      assert Trail(heap, root, trail + [ref]);
      if ref in trail { RepeatFound(heap, root, trail, ref); }
      assert ref in heap.Keys - Open(trail) && ref !in heap.Keys - Open(trail + [ref]);
      var ts := EntryTrees(heap, root, trail + [ref]);
      t := Node(heap[ref].tag, seq(|ts|, i requires 0 <= i < |ts| => heap[ref].entries[i].key), ts);
  }

  // ----- the clone -----

  /** The first n entries of the cell are those of the tree. */
  ghost predicate Filled(heap: Heap, cell: Cell, t: Tree, n: nat) {
    && t.Node? && |t.keys| == |t.kids| && n <= |t.kids|
    && cell.tag == t.tag && |cell.entries| == n
    && forall k :: 0 <= k < n ==> cell.entries[k].key == t.keys[k] && Unfolds(heap, cell.entries[k].value, t.kids[k])
  }

  lemma FilledFrame(a: Heap, b: Heap, cell: Cell, t: Tree, n: nat)
    requires Extends(a, b) && Filled(a, cell, t, n)
    ensures Filled(b, cell, t, n)
  {
    hide Unfolds, Extends;
    forall k | 0 <= k < n ensures Unfolds(b, cell.entries[k].value, t.kids[k]) {
      UnfoldsFrame(a, b, cell.entries[k].value, t.kids[k]);
    }
  }

  lemma FilledMore(heap: Heap, cell: Cell, t: Tree, n: nat, v: Value)
    requires Filled(heap, cell, t, n) && n < |t.kids| && Unfolds(heap, v, t.kids[n])
    ensures Filled(heap, Cell(cell.tag, cell.entries + [Entry(t.keys[n], v)]), t, n + 1)
  {
    hide Unfolds;
  }

  lemma FilledIsTree(heap: Heap, r: Ref, t: Tree)
    requires r in heap && t.Node? && Filled(heap, heap[r], t, |t.kids|)
    ensures Unfolds(heap, Refer(r), t)
  {}

  class Memory {
    var heap: Heap
    var next: Ref

    ghost predicate Valid()
      reads this
    {
      forall r :: r in heap ==> r < next
    }

    constructor (cells: Heap, bound: Ref)
      requires forall r :: r in cells ==> r < bound
      ensures Valid() && heap == cells
    {
      heap, next := cells, bound;
    }

    /** A new cell without entries. */
    method Make(tag: string) returns (r: Ref)
      requires Valid()
      modifies this
      ensures Valid() && r !in old(heap) && heap == old(heap)[r := Cell(tag, [])]
    {
      r := next;
      next := next + 1;
      heap := heap[r := Cell(tag, [])];
    }

    method SetEntry(r: Ref, e: Entry)
      requires Valid() && r in heap
      modifies this
      ensures Valid() && heap == old(heap)[r := Cell(old(heap)[r].tag, old(heap)[r].entries + [e])]
    {
      heap := heap[r := Cell(heap[r].tag, heap[r].entries + [e])];
    }

    method CloneParts(parts: seq<Value>, ghost ts: seq<Tree>) returns (c: seq<Value>)
      requires Valid() && |ts| == |parts| && forall i :: 0 <= i < |parts| ==> Unfolds(heap, parts[i], ts[i])
      modifies this
      ensures Valid() && Extends(old(heap), heap)
      ensures |c| == |ts| && forall i :: 0 <= i < |c| ==> Unfolds(heap - old(heap).Keys, c[i], ts[i])
      decreases Parts(ts), 0
    {
      c := [];
      ghost var was := heap;
      while |c| < |parts|
        invariant Valid() && Extends(was, heap) && |c| <= |parts|
        invariant forall i :: 0 <= i < |c| ==> Unfolds(heap - was.Keys, c[i], ts[i])
      {
        ghost var before := heap;
        UnfoldsFrame(was, heap, parts[|c|], ts[|c|]);
        var d := CloneValue(parts[|c|], ts[|c|]);
        forall i | 0 <= i < |c| ensures Unfolds(heap - was.Keys, c[i], ts[i]) {
          UnfoldsFrame(before - was.Keys, heap - was.Keys, c[i], ts[i]);
        }
        UnfoldsFrame(heap - before.Keys, heap - was.Keys, d, ts[|c|]);
        c := c + [d];
      }
    }

    /** The container is made first and filled while its entries are cloned. */
    method CloneCell(ref: Ref, ghost t: Tree) returns (c: Ref)
      requires Valid() && Unfolds(heap, Refer(ref), t)
      modifies this
      ensures Valid() && Extends(old(heap), heap)
      ensures Unfolds(heap - old(heap).Keys, Refer(c), t)
      decreases t, 0
    {
      ghost var was := heap;
      var entries := heap[ref].entries;
      c := Make(heap[ref].tag);
      var i := 0;
      while i < |entries|
        invariant i <= |entries| && Valid() && Extends(was, heap) && c !in was && c in heap
        invariant Filled(heap - was.Keys - {c}, heap[c], t, i)
      {
        ghost var before := heap;
        UnfoldsFrame(was, heap, entries[i].value, t.kids[i]);
        var d := CloneValue(entries[i].value, t.kids[i]);
        ghost var others := heap - was.Keys - {c};
        FilledFrame(before - was.Keys - {c}, others, heap[c], t, i);
        UnfoldsFrame(heap - before.Keys, others, d, t.kids[i]);
        FilledMore(others, heap[c], t, i, d);
        SetEntry(c, Entry(entries[i].key, d));
        assert heap - was.Keys - {c} == others;
        i := i + 1;
      }
      FilledFrame(heap - was.Keys - {c}, heap - was.Keys, heap[c], t, i);
      FilledIsTree(heap - was.Keys, c, t);
    }

    method CloneValue(v: Value, ghost t: Tree) returns (c: Value)
      requires Valid() && Unfolds(heap, v, t)
      modifies this
      ensures Valid() && Extends(old(heap), heap)
      ensures Unfolds(heap - old(heap).Keys, c, t)
      decreases t, 1
    {
      match v
      case Group(parts) =>
        var cs := CloneParts(parts, t.parts);
        c := Group(cs);
      case Refer(ref) =>
        var r := CloneCell(ref, t);
        c := Refer(r);
      case _ => c := v;
    }

    /**
     The clone behind the check: it ends, leaves every old cell alone, and denotes the tree its source denotes
     through cells that did not exist before.
     */
    method CloneConfig(config: Value) returns (c: Value, ghost t: Tree)
      requires Valid() && Closed(heap) && Known(heap, config) && !Cyclic(heap, config)
      modifies this
      ensures Valid() && Extends(old(heap), heap)
      ensures Unfolds(old(heap), config, t) && Unfolds(heap - old(heap).Keys, c, t)
    {
      assert forall r :: Mentions(config, r) ==> Trail(heap, config, [] + [r]);
      t := TreeOf(heap, config, [], config);
      c := CloneValue(config, t);
    }
  }

  /** now is was with more cells, and c denotes through those alone what v denoted. */
  ghost predicate ClonedFrom(was: Heap, v: Value, now: Heap, c: Value) {
    Extends(was, now) && exists t :: Unfolds(was, v, t) && Unfolds(now - was.Keys, c, t)
  }

  ghost predicate Denotes(heap: Heap, v: Value) { exists t :: Unfolds(heap, v, t) }

  lemma DenotesFrame(a: Heap, b: Heap, v: Value)
    requires Extends(a, b) && Denotes(a, v)
    ensures Denotes(b, v)
  {
    var t := KeptTree(a, b, v);
  }

  lemma KeptTree(a: Heap, b: Heap, v: Value) returns (t: Tree)
    requires Extends(a, b) && Denotes(a, v)
    ensures Unfolds(b, v, t)
  {
    hide Unfolds;
    t :| Unfolds(a, v, t);
    UnfoldsFrame(a, b, v, t);
  }

  /** Whatever later happens to the cells that were there before, the clone denotes the same tree. */
  lemma CloneIsIndependent(was: Heap, heap: Heap, later: Heap, c: Value, t: Tree)
    requires Unfolds(heap - was.Keys, c, t)
    requires forall r :: r in heap && r !in was ==> r in later && later[r] == heap[r]
    ensures Unfolds(later, c, t) && forall u :: Unfolds(later, c, u) ==> u == t
  {
    UnfoldsFrame(heap - was.Keys, later, c, t);
    forall u | Unfolds(later, c, u) ensures u == t { UnfoldsUnique(later, c, t, u); }
  }

  // ----- the check is what the clone needs -----

  ghost predicate PlainKeys(heap: Heap) {
    forall a, i, r :: a in heap && 0 <= i < |heap[a].entries| ==> !Mentions(heap[a].entries[i].key, r)
  }

  lemma {:induction false} SubtreeOf(heap: Heap, v: Value, t: Tree, r: Ref) returns (u: Tree)
    requires Unfolds(heap, v, t) && Mentions(v, r)
    ensures Unfolds(heap, Refer(r), u) && (u == t || Size(u) < Size(t))
    decreases t
  {
    match v
    case Refer(_) => u := t;
    case Group(parts) =>
      var i :| 0 <= i < |parts| && Mentions(parts[i], r);
      u := SubtreeOf(heap, parts[i], t.parts[i], r);
      KidSize(t.parts, i);
  }

  function Size(t: Tree): (n: nat)
    ensures n > 0
  {
    match t
    case Parts(parts) => 1 + Sizes(parts)
    case Node(_, _, kids) => 1 + Sizes(kids)
    case _ => 1
  }

  function Sizes(ts: seq<Tree>): nat {
    if ts == [] then 0 else Size(ts[0]) + Sizes(ts[1..])
  }

  lemma {:induction false} KidSize(ts: seq<Tree>, i: nat)
    requires i < |ts|
    ensures Size(ts[i]) <= Sizes(ts)
  {
    if i > 0 { KidSize(ts[1..], i - 1); }
  }

  /** Along a trail the denoted trees only shrink. */
  lemma {:induction false} TrailShrinks(heap: Heap, root: Value, t: Tree, p: seq<Ref>, i: nat, j: nat) returns (u: Tree, w: Tree)
    requires Unfolds(heap, root, t) && Trail(heap, root, p) && PlainKeys(heap) && i <= j < |p|
    ensures Unfolds(heap, Refer(p[i]), u) && Unfolds(heap, Refer(p[j]), w)
    ensures i < j ==> Size(w) < Size(u)
    decreases j
  {
    if j == 0 {
      u := SubtreeOf(heap, root, t, p[0]);
      w := u;
    } else {
      var from := j - 1;
      var a, b := TrailShrinks(heap, root, t, p, if i < j then i else from, from);
      if i == from { UnfoldsUnique(heap, Refer(p[from]), a, b); }
      assert Edge(heap, p[from], p[j]);
      var k :| 0 <= k < |heap[p[from]].entries| && EntryMentions(heap[p[from]].entries[k], p[j]);
      w := SubtreeOf(heap, heap[p[from]].entries[k].value, b.kids[k], p[j]);
      KidSize(b.kids, k);
      u := if i < j then a else w;
    }
  }

  lemma TreeIsAcyclic(heap: Heap, config: Value, t: Tree)
    requires Unfolds(heap, config, t) && PlainKeys(heap)
    ensures !Cyclic(heap, config)
  {
    forall p | Trail(heap, config, p) ensures !Repeats(p) {
      forall i, j | 0 <= i < j < |p| ensures p[i] != p[j] {
        var u, w := TrailShrinks(heap, config, t, p, i, j);
        if p[i] == p[j] { UnfoldsUnique(heap, Refer(p[i]), u, w); }
      }
    }
  }

  ghost predicate HasTree(heap: Heap, v: Value) { exists t :: Unfolds(heap, v, t) }

  /** With plain map keys, the configurations the check lets in are exactly those that denote a tree at all. */
  lemma AcyclicIffTree(heap: Heap, config: Value)
    requires Closed(heap) && Known(heap, config) && PlainKeys(heap)
    ensures !Cyclic(heap, config) <==> HasTree(heap, config)
  {
    if !Cyclic(heap, config) {
      assert forall r :: Mentions(config, r) ==> Trail(heap, config, [] + [r]);
      var t := TreeOf(heap, config, [], config);
    }
    if HasTree(heap, config) {
      var t :| Unfolds(heap, config, t);
      TreeIsAcyclic(heap, config, t);
    }
  }
}
