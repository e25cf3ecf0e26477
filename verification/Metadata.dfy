/** Free-form plugin metadata: the budgeted walk that accepts it and the depth-cut clone that copies it. */
module Metadata {
  import opened Common
  import opened Strings

  const MAX_DEPTH := 32
  const MAX_NODES := 4096

  /** Unsupported stands for any dynamic type the walk does not know. A nil map reads as an empty one. */
  datatype Value =
    | Nil
    | Scalar(text: string)
    | Items(items: seq<Value>)
    | Entries(entries: map<string, Value>)
    | Unsupported(name: string)

  predicate IsScalar(v: Value) { v.Nil? || v.Scalar? }

  // ----- what is accepted, without an order -----

  /** Every key has text, maps nest no deeper than limit, leaves are scalars or arrays of scalars. */
  ghost predicate Shaped(v: Value, depth: nat, limit: nat)
    decreases v
  {
    match v
    case Items(items) => forall i :: 0 <= i < |items| ==> IsScalar(items[i])
    case Entries(m) => depth <= limit && forall k :: k in m ==> !Blank(k) && Shaped(m[k], depth + 1, limit)
    case _ => IsScalar(v)
  }

  /** Map entries and array items, all told. */
  ghost function Nodes(v: Value): nat
    decreases v, 1, 0
  {
    match v
    case Items(items) => |items|
    case Entries(m) => Over(v, m.Keys)
    case _ => 0
  }

  /** The nodes under some of the keys. */
  ghost function Over(v: Value, keys: set<string>): nat
    requires v.Entries? && keys <= v.entries.Keys
    decreases v, 0, |keys|
  {
    if keys == {} then 0
    else
      var k :| k in keys;
      1 + Nodes(v.entries[k]) + Over(v, keys - {k})
  }

  /** Counting does not depend on which key comes first. */
  lemma {:induction false} OverAnyOrder(v: Value, keys: set<string>, k: string)
    requires v.Entries? && keys <= v.entries.Keys && k in keys
    ensures Over(v, keys) == 1 + Nodes(v.entries[k]) + Over(v, keys - {k})
    decreases |keys|
  {
    var j :| j in keys && Over(v, keys) == 1 + Nodes(v.entries[j]) + Over(v, keys - {j});
    if j != k {
      OverAnyOrder(v, keys - {j}, k);
      OverAnyOrder(v, keys - {k}, j);
      assert keys - {j} - {k} == keys - {k} - {j};
    }
  }

  lemma {:induction false} OverGrows(v: Value, some: set<string>, all: set<string>)
    requires v.Entries? && some <= all <= v.entries.Keys
    ensures Over(v, some) <= Over(v, all)
    decreases |all|
  {
    if k :| k in all && k !in some {
      OverAnyOrder(v, all, k);
      OverGrows(v, some, all - {k});
    } else {
      assert some == all;
    }
  }

  /** The shape, spelled out for each kind of value. */
  lemma ShapedIs(v: Value, depth: nat, limit: nat)
    ensures v.Nil? || v.Scalar? ==> Shaped(v, depth, limit)
    ensures v.Unsupported? ==> !Shaped(v, depth, limit)
    ensures v.Items? ==> (Shaped(v, depth, limit) <==> forall x :: x in v.items ==> x.Nil? || x.Scalar?)
    ensures v.Entries? ==>
      (Shaped(v, depth, limit) <==> depth <= limit && forall k :: k in v.entries ==> !Blank(k) && Shaped(v.entries[k], depth + 1, limit))
  {
    hide Blank;
    if v.Items? && !Shaped(v, depth, limit) {
      var i :| 0 <= i < |v.items| && !IsScalar(v.items[i]);
      assert v.items[i] in v.items;
    }
  }

  /** What the walk checks of one entry, the budget aside. */
  ghost predicate EntryShaped(v: Value, k: string, depth: nat)
    requires v.Entries? && k in v.entries
  {
    !Blank(k) && Shaped(v.entries[k], depth + 1, MAX_DEPTH)
  }

  lemma ShapedByEntries(v: Value, depth: nat)
    requires v.Entries?
    ensures Shaped(v, depth, MAX_DEPTH) <==> depth <= MAX_DEPTH && forall k :: k in v.entries ==> EntryShaped(v, k, depth)
    ensures Nodes(v) == Over(v, v.entries.Keys) && Over(v, {}) == 0
  {
    hide Blank;
  }

  ghost function Seen(v: Value, rest: set<string>): (s: set<string>)
    requires v.Entries?
    ensures s <= v.entries.Keys
  {
    v.entries.Keys - rest
  }

  lemma SeenEnds(v: Value)
    requires v.Entries?
    ensures Seen(v, v.entries.Keys) == {} && Seen(v, {}) == v.entries.Keys
  {}

  /** Taking one more key off the rest. */
  lemma OverAdds(v: Value, rest: set<string>, k: string)
    requires v.Entries? && rest <= v.entries.Keys && k in rest
    ensures Over(v, Seen(v, rest - {k})) == 1 + Nodes(v.entries[k]) + Over(v, Seen(v, rest))
    ensures Over(v, Seen(v, rest - {k})) <= Over(v, v.entries.Keys)
  {
    OverAnyOrder(v, Seen(v, rest - {k}), k);
    assert Seen(v, rest - {k}) - {k} == Seen(v, rest);
    OverGrows(v, Seen(v, rest - {k}), v.entries.Keys);
  }

  // ----- the walk -----

  /** walkMetadata: whatever order the map is read in, and however much of the budget is already spent. */
  method Walk(v: Value, depth: nat, budget: nat) returns (ok: bool, left: nat)
    requires v.Entries?
    ensures ok <==> Shaped(v, depth, MAX_DEPTH) && Nodes(v) <= budget
    ensures ok ==> left == budget - Nodes(v)
    ensures left <= budget
    decreases v, 0
  {
    hide Blank, Shaped, Nodes, Over, Seen;
    ShapedByEntries(v, depth);
    SeenEnds(v);
    left := budget;
    if depth > MAX_DEPTH { return false, left; }
    var rest := v.entries.Keys;
    while rest != {}
      invariant rest <= v.entries.Keys
      invariant left <= budget && left == budget - Over(v, Seen(v, rest))
      invariant forall k :: k in v.entries && k !in rest ==> EntryShaped(v, k, depth)
      decreases |rest|
    {
      var k :| k in rest;
      OverAdds(v, rest, k);
      if Blank(k) || left == 0 { return false, left; }
      ok, left := WalkValue(v.entries[k], depth, left - 1);
      if !ok { return; }
      rest := rest - {k};
    }
    ok := true;
  }

  /** validateMetadataValueBounded. */
  method WalkValue(v: Value, depth: nat, budget: nat) returns (ok: bool, left: nat)
    ensures ok <==> Shaped(v, depth + 1, MAX_DEPTH) && Nodes(v) <= budget
    ensures ok ==> left == budget - Nodes(v)
    ensures left <= budget
    decreases v, 1
  {
    left := budget;
    match v
    case Items(items) =>
      for i := 0 to |items|
        invariant left <= budget && left == budget - i
        invariant forall j :: 0 <= j < i ==> IsScalar(items[j])
      {
        if left == 0 { return false, left; }
        left := left - 1;
        if !IsScalar(items[i]) { return false, left; }
      }
      ok := true;
    case Entries(_) => ok, left := Walk(v, depth + 1, budget);
    case _ => ok := IsScalar(v);
  }

  /** validateMetadataBounded: the verdict is a property of the metadata alone. */
  method Validate(v: Value) returns (ok: bool)
    requires v.Entries?
    ensures ok <==> Accepted(v)
    ensures ok <==> Shaped(v, 0, 32) && Nodes(v) <= 4096
  {
    var left;
    ok, left := Walk(v, 0, MAX_NODES);
  }

  ghost predicate Accepted(v: Value) { v.Entries? && Shaped(v, 0, MAX_DEPTH) && Nodes(v) <= MAX_NODES }

  // ----- the clone -----

  /** The value with everything deeper than the limit replaced by nil. */
  function Cut(v: Value, depth: nat): Value
    decreases v
  {
    if depth > MAX_DEPTH then Nil
    else
      match v
      case Entries(m) => Entries(map k | k in m :: Cut(m[k], depth + 1))
      case Items(items) => Items(seq(|items|, i requires 0 <= i < |items| => Cut(items[i], depth + 1)))
      case _ => v
  }

  /** cloneMapAnyDepth: a fresh map filled entry by entry. */
  method CloneEntries(v: Value, depth: nat) returns (out: map<string, Value>)
    requires v.Entries?
    ensures Entries(out) == if depth > MAX_DEPTH then Entries(map[]) else Cut(v, depth)
    decreases v, 0
  {
    out := map[];
    if depth > MAX_DEPTH || |v.entries| == 0 {
      return;
    }
    var rest := v.entries.Keys;
    while rest != {}
      invariant rest <= v.entries.Keys && out.Keys == v.entries.Keys - rest
      invariant forall k :: k in out ==> out[k] == Cut(v.entries[k], depth + 1)
      decreases |rest|
    {
      var k :| k in rest;
      var c := Clone(v.entries[k], depth + 1);
      out := out[k := c];
      rest := rest - {k};
    }
  }

  /** deepCloneAnyDepth. */
  method Clone(v: Value, depth: nat) returns (out: Value)
    ensures out == Cut(v, depth)
    decreases v, 1
  {
    if depth > MAX_DEPTH { return Nil; }
    match v
    case Entries(_) =>
      var m := CloneEntries(v, depth);
      out := Entries(m);
    case Items(items) =>
      var copies: seq<Value> := [];
      for i := 0 to |items|
        invariant |copies| == i && forall j :: 0 <= j < i ==> copies[j] == Cut(items[j], depth + 1)
      {
        var c := Clone(items[i], depth + 1);
        copies := copies + [c];
      }
      out := Items(copies);
    case _ => out := v;
  }

  // ----- what the cut keeps, place by place -----

  datatype Hop = Key(key: string) | Index(index: nat)

  function At(v: Value, path: seq<Hop>): Option<Value>
    decreases |path|
  {
    if path == [] then Some(v)
    else
      match path[0]
      case Key(k) => if v.Entries? && k in v.entries then At(v.entries[k], path[1..]) else None
      case Index(i) => if v.Items? && i < |v.items| then At(v.items[i], path[1..]) else None
  }

  /** The same constructor with the same keys, length or leaf. */
  ghost predicate SameHead(a: Value, b: Value) {
    match a
    case Entries(m) => b.Entries? && b.entries.Keys == m.Keys
    case Items(items) => b.Items? && |b.items| == |items|
    case _ => b == a
  }

  /** Up to the limit every place survives with its head, the places just below it become nil, and nothing is deeper. */
  lemma {:induction false} CutPlaces(v: Value, depth: nat, path: seq<Hop>)
    requires depth <= 33
    ensures var was, now := At(v, path), At(Cut(v, depth), path);
      if depth + |path| <= 32 then (was.Some? <==> now.Some?) && (was.Some? ==> SameHead(was.value, now.value))
      else if depth + |path| == 33 then now == if was.Some? then Some(Nil) else None
      else now == None
    decreases |path|
  {
    if path != [] && depth <= MAX_DEPTH {
      match path[0]
      case Key(k) => if v.Entries? && k in v.entries { CutPlaces(v.entries[k], depth + 1, path[1..]); }
      case Index(i) => if v.Items? && i < |v.items| { CutPlaces(v.items[i], depth + 1, path[1..]); }
    }
  }

  /** Nothing but nil stands below the limit. */
  ghost predicate Shallow(v: Value, depth: nat)
    requires depth <= MAX_DEPTH + 1
  {
    forall path :: depth + |path| == MAX_DEPTH + 1 && At(v, path).Some? ==> At(v, path).value == Nil
  }

  lemma ShallowBelow(v: Value, depth: nat, hop: Hop, kid: Value)
    requires depth <= MAX_DEPTH && Shallow(v, depth) && At(v, [hop]) == Some(kid)
    ensures Shallow(kid, depth + 1)
  {
    forall path | depth + 1 + |path| == MAX_DEPTH + 1 && At(kid, path).Some? ensures At(kid, path).value == Nil {
      assert ([hop] + path)[1..] == path;
      assert At(v, [hop] + path) == At(kid, path);
    }
  }

  /** The clone changes nothing exactly when there is nothing to cut. */
  lemma {:induction false} CloneIsIdentityIff(v: Value, depth: nat)
    requires depth <= MAX_DEPTH + 1
    ensures Cut(v, depth) == v <==> Shallow(v, depth)
    decreases v
  {
    if Cut(v, depth) == v {
      forall path | depth + |path| == MAX_DEPTH + 1 && At(v, path).Some? ensures At(v, path).value == Nil {
        CutPlaces(v, depth, path);
      }
    }
    if Shallow(v, depth) {
      if depth > MAX_DEPTH {
        assert At(v, []) == Some(v);
      } else {
        match v
        case Entries(m) =>
          forall k | k in m ensures Cut(m[k], depth + 1) == m[k] {
            ShallowBelow(v, depth, Key(k), m[k]);
            CloneIsIdentityIff(m[k], depth + 1);
          }
        case Items(items) =>
          forall i | 0 <= i < |items| ensures Cut(items[i], depth + 1) == items[i] {
            ShallowBelow(v, depth, Index(i), items[i]);
            CloneIsIdentityIff(items[i], depth + 1);
          }
        case _ =>
      }
    }
  }

  /** Metadata whose maps nest two levels less than the walk allows is copied whole. */
  lemma {:induction false} ShapedIsCopied(v: Value, depth: nat)
    requires Shaped(v, depth, 30) && (v.Entries? || depth <= 31)
    ensures Cut(v, depth) == v
    decreases v
  {
    match v
    case Entries(m) =>
      forall k | k in m ensures Cut(m[k], depth + 1) == m[k] { ShapedIsCopied(m[k], depth + 1); }
    case _ =>
  }

  /** n maps around a value. */
  function Nest(v: Value, n: nat): Value { if n == 0 then v else Entries(map["k" := Nest(v, n - 1)]) }

  lemma {:induction false} NestFacts(v: Value, n: nat, depth: nat)
    requires depth + n <= MAX_DEPTH + 1 && (v.Items? || IsScalar(v)) && (v.Items? ==> v.items == [Scalar("x")])
    ensures Shaped(Nest(v, n), depth, MAX_DEPTH) && Nodes(Nest(v, n)) == n + if v.Items? then 1 else 0
    ensures Cut(Nest(v, n), depth) == Nest(Cut(v, depth + n), n)
    ensures n > 0 ==> Nest(v, n).Entries?
  {
    hide Blank;
    KeyIsNotBlank();
    if n > 0 {
      var w := Nest(v, n);
      NestFacts(v, n - 1, depth + 1);
      OverAnyOrder(w, {"k"}, "k");
      assert w.entries.Keys == {"k"};
      assert {"k"} - {"k"} == {};
    }
  }

  lemma KeyIsNotBlank()
    ensures !Blank("k")
  {
    hide Blank;
    BlankIsAllSpace("k");
    assert !IsSpace("k"[0]);
  }

  lemma {:induction false} NestInjective(v: Value, w: Value, n: nat)
    requires Nest(v, n) == Nest(w, n)
    ensures v == w
  {
    if n > 0 {
      assert Nest(v, n).entries["k"] == Nest(w, n).entries["k"];
      NestInjective(v, w, n - 1);
    }
  }

  /** The walk accepts metadata that the clone then changes: a scalar in the innermost of 33 maps. */
  lemma AcceptedButCut()
    ensures var v := Nest(Scalar("x"), MAX_DEPTH + 1);
      Accepted(v) && Cut(v, 0) != v
  {
    NestFacts(Scalar("x"), MAX_DEPTH + 1, 0);
    if Cut(Nest(Scalar("x"), MAX_DEPTH + 1), 0) == Nest(Scalar("x"), MAX_DEPTH + 1) {
      NestInjective(Scalar("x"), Nil, MAX_DEPTH + 1);
    }
  }

  /** An array one map earlier is cut too, so the margin of two levels is exact. */
  lemma ArrayAcceptedButCut()
    ensures var v := Nest(Items([Scalar("x")]), MAX_DEPTH);
      Accepted(v) && Shaped(v, 0, MAX_DEPTH - 1) && Cut(v, 0) != v
  {
    hide Shaped, Cut, Nodes, Nest;
    var items := Items([Scalar("x")]);
    NestFacts(items, MAX_DEPTH, 0);
    NestShaped(items, MAX_DEPTH, 0, MAX_DEPTH - 1);
    ItemIsCut();
    if Cut(Nest(items, MAX_DEPTH), 0) == Nest(items, MAX_DEPTH) {
      NestInjective(items, Cut(items, MAX_DEPTH), MAX_DEPTH);
    }
  }

  lemma ItemIsCut()
    ensures Cut(Items([Scalar("x")]), MAX_DEPTH) != Items([Scalar("x")])
  {
    assert Cut(Items([Scalar("x")]), MAX_DEPTH).items[0] == Nil;
  }

  lemma {:induction false} NestShaped(v: Value, n: nat, depth: nat, limit: nat)
    requires v == Items([Scalar("x")]) && depth + n <= limit + 1
    ensures Shaped(Nest(v, n), depth, limit)
  {
    hide Blank;
    KeyIsNotBlank();
    if n > 0 { NestShaped(v, n - 1, depth + 1, limit); }
  }
}
