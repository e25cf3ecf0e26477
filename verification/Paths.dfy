/** Lexical slash-separated paths: path.Clean and path.Join. */
module Paths {
  import opened Strings

  // ----- cleaning -----

  /** One segment met while reading left to right, against the segments kept so far. */
  function Push(kept: seq<string>, seg: string, rooted: bool): seq<string> {
    if seg == "" || seg == "." then kept
    else if seg == ".." then
      if kept != [] && kept[|kept| - 1] != ".." then kept[..|kept| - 1]
      else if rooted then kept
      else kept + [".."]
    else kept + [seg]
  }

  function PushAll(kept: seq<string>, segs: seq<string>, rooted: bool): seq<string>
    decreases segs
  {
    if segs == [] then kept else PushAll(Push(kept, segs[0], rooted), segs[1..], rooted)
  }

  function Kept(p: string): seq<string> {
    PushAll([], Split(p, '/'), IsAbs(p))
  }

  predicate IsAbs(p: string) { p != "" && p[0] == '/' }

  /** path.Clean. */
  function Clean(p: string): string {
    var body := Join(Kept(p), '/');
    if IsAbs(p) then "/" + body
    else if body == "" then "."
    else body
  }

  /** Real segments, with parent references only in front, and none of them under a root. */
  predicate Canonical(kept: seq<string>, rooted: bool) {
    && (forall i :: 0 <= i < |kept| ==> '/' !in kept[i] && kept[i] != "" && kept[i] != ".")
    && (forall i :: 0 <= i < |kept| && kept[i] == ".." ==> !rooted && forall j :: 0 <= j < i ==> kept[j] == "..")
  }

  lemma {:induction false} PushAllCanonical(kept: seq<string>, segs: seq<string>, rooted: bool)
    requires Canonical(kept, rooted) && forall i :: 0 <= i < |segs| ==> '/' !in segs[i]
    ensures Canonical(PushAll(kept, segs, rooted), rooted)
    decreases segs
  {
    if segs != [] {
      var next := Push(kept, segs[0], rooted);
      if segs[0] == ".." && next == kept + [".."] {
        assert kept == [] || kept[|kept| - 1] == "..";
      }
      PushAllCanonical(next, segs[1..], rooted);
    }
  }

  lemma KeptCanonical(p: string)
    ensures Canonical(Kept(p), IsAbs(p))
  {
    PushAllCanonical([], Split(p, '/'), IsAbs(p));
  }

  /** Reading a canonical run of segments keeps all of them. */
  lemma {:induction false} PushAllKeeps(kept: seq<string>, segs: seq<string>, rooted: bool)
    requires Canonical(kept + segs, rooted)
    ensures PushAll(kept, segs, rooted) == kept + segs
    decreases segs
  {
    if segs == [] {
      assert kept + segs == kept;
    } else {
      var all := kept + segs;
      assert all[|kept|] == segs[0];
      assert forall i :: 0 <= i < |kept| ==> all[i] == kept[i];
      assert Push(kept, segs[0], rooted) == kept + [segs[0]];
      assert kept + [segs[0]] + segs[1..] == all;
      PushAllKeeps(kept + [segs[0]], segs[1..], rooted);
    }
  }

  lemma {:induction false} JoinCanonical(kept: seq<string>, rooted: bool)
    requires Canonical(kept, rooted)
    ensures Join(kept, '/') == "" <==> kept == []
    ensures !IsAbs(Join(kept, '/'))
    ensures kept != [] ==> Join(kept, '/') != "."
  {
    if |kept| > 0 {
      var head := kept[0];
      assert head != "" && head[0] != '/' by { assert head[0] in head; }
      if |kept| > 1 {
        assert Join(kept, '/')[|head|] == '/';
        assert Join(kept, '/')[0] == head[0];
        assert |Join(kept, '/')| > 1;
      }
    }
  }

  /** The segments of a cleaned path are the segments that were kept. */
  lemma KeptClean(p: string)
    ensures Kept(Clean(p)) == Kept(p) && IsAbs(Clean(p)) == IsAbs(p)
  {
    var kept, rooted := Kept(p), IsAbs(p);
    KeptCanonical(p);
    if kept == [] {
      assert Join(kept, '/') == "" && "/" + "" == "/";
      NothingKept(rooted);
    } else {
      KeptAgain(kept, rooted);
      assert "" + Join(kept, '/') == Join(kept, '/');
    }
  }

  lemma NothingKept(rooted: bool)
    ensures Kept(if rooted then "/" else ".") == [] && !IsAbs(".") && IsAbs("/")
  {
    if rooted {
      SplitPrefix("", "", '/');
      assert "" + "/" + "" == "/";
      assert Split("/", '/') == [""] + [""];
      assert PushAll([], [""] + [""], true) == PushAll([], [""], true) == [];
    } else {
      SplitPrefix(".", "", '/');
    }
  }

  /** A canonical run of segments, written out, is read as itself. */
  lemma KeptAgain(kept: seq<string>, rooted: bool)
    requires Canonical(kept, rooted) && kept != []
    ensures var text := (if rooted then "/" else "") + Join(kept, '/');
      Kept(text) == kept && IsAbs(text) == rooted && Join(kept, '/') != ""
  {
    hide Split, Join;
    JoinCanonical(kept, rooted);
    PushAllKeeps([], kept, rooted);
    assert [] + kept == kept;
    SplitJoin(kept, '/');
    if rooted {
      SplitPrefix("", Join(kept, '/'), '/');
      assert "" + "/" + Join(kept, '/') == "/" + Join(kept, '/');
      assert ([""] + kept)[1..] == kept;
    } else {
      assert "" + Join(kept, '/') == Join(kept, '/');
    }
  }

  /** Cleaning a cleaned path changes nothing. */
  lemma CleanIdempotent(p: string)
    ensures Clean(Clean(p)) == Clean(p)
  {
    KeptClean(p);
  }

  /** Two paths clean to the same text exactly when they agree on being absolute and on the segments kept. */
  lemma CleanEqual(p: string, q: string)
    ensures Clean(p) == Clean(q) <==> IsAbs(p) == IsAbs(q) && Kept(p) == Kept(q)
  {
    KeptClean(p);
    KeptClean(q);
  }

  // ----- the rules of cleaning -----

  lemma {:induction false} PushAllAppend(kept: seq<string>, a: seq<string>, b: seq<string>, rooted: bool)
    ensures PushAll(kept, a + b, rooted) == PushAll(PushAll(kept, a, rooted), b, rooted)
    decreases a
  {
    if a == [] {
      assert a + b == b;
    } else {
      assert (a + b)[1..] == a[1..] + b;
      PushAllAppend(Push(kept, a[0], rooted), a[1..], b, rooted);
    }
  }

  /**
   The rules of path.Clean on the segments: empty and dot segments go, a parent reference goes with the real segment
   before it, under a root one in front goes, and what is left of that form stays.
   */
  lemma CleanRules(a: seq<string>, b: seq<string>, x: string, rooted: bool)
    ensures PushAll([], a + [""] + b, rooted) == PushAll([], a + b, rooted)
    ensures PushAll([], a + ["."] + b, rooted) == PushAll([], a + b, rooted)
    ensures x != "" && x != "." && x != ".." ==> PushAll([], a + [x, ".."] + b, rooted) == PushAll([], a + b, rooted)
    ensures PushAll([], [".."] + b, true) == PushAll([], b, true)
    ensures Canonical(a, rooted) ==> PushAll([], a, rooted) == a
  {
    var kept := PushAll([], a, rooted);
    PushAllAppend([], a, b, rooted);
    PushAllAppend([], a + [""], b, rooted);
    PushAllAppend([], a, [""], rooted);
    PushAllAppend([], a + ["."], b, rooted);
    PushAllAppend([], a, ["."], rooted);
    PushAllAppend([], a + [x, ".."], b, rooted);
    PushAllAppend([], a, [x, ".."], rooted);
    assert PushAll(kept, [x, ".."], rooted) == PushAll(Push(kept, x, rooted), [".."], rooted);
    assert ([".."] + b)[1..] == b;
    if Canonical(a, rooted) {
      assert [] + a == a;
      PushAllKeeps([], a, rooted);
    }
  }

  /** The text of a cleaned path. */
  lemma CleanIs(p: string)
    ensures Clean(p) == if p != "" && p[0] == '/' then "/" + Join(Kept(p), '/') else if Kept(p) == [] then "." else Join(Kept(p), '/')
    ensures Kept(p) == PushAll([], Split(p, '/'), p != "" && p[0] == '/')
  {
    KeptCanonical(p);
    JoinCanonical(Kept(p), IsAbs(p));
  }

  /** path.Join of a base directory and one more path. */
  function JoinPath(base: string, rel: string): string {
    if base == "" && rel == "" then ""
    else if base == "" then Clean(rel)
    else if rel == "" then Clean(base)
    else Clean(base + "/" + rel)
  }
}
