/**
 One page of the workspace table, and scans made of many pages.

 A page is the first rows past the cursor in key order. A scan reads page after page, each with the
 cursor the page before returned, while other callers may change the table between two pages.
 */
module Paging {
  import opened Common
  import opened Keys
  import Base64
  import opened Workspaces

  const DEFAULT_LIMIT := 50

  datatype Page = Page(rows: seq<Row>, next: string)

  ghost predicate RowKeysDistinct(rows: set<Row>) {
    forall a, b :: a in rows && b in rows && a.key == b.key ==> a == b
  }

  ghost predicate IsLeast(m: Row, rows: set<Row>) {
    m in rows && forall r :: r in rows && r != m ==> Less(m.key, r.key)
  }

  lemma {:induction false} LeastExists(rows: set<Row>) returns (m: Row)
    requires rows != {} && RowKeysDistinct(rows)
    ensures IsLeast(m, rows)
  {
    var x :| x in rows;
    if rows == {x} {
      m := x;
    } else {
      var rest := rows - {x};
      assert rows == rest + {x};
      var y := LeastExists(rest);
      KeyOrder(x.key, y.key);
      if Less(x.key, y.key) {
        forall r | r in rows && r != x ensures Less(x.key, r.key) {
          if r != y { KeyTransitive(x.key, y.key, r.key); }
        }
        m := x;
      } else {
        m := y;
      }
    }
  }

  /** The rows of a set in key order. */
  ghost function SortRows(rows: set<Row>): (s: seq<Row>)
    requires RowKeysDistinct(rows)
    ensures Sorted(s)
    ensures forall r :: r in s <==> r in rows
  {
    if rows == {} then []
    else
      assert exists m :: IsLeast(m, rows) by { var m := LeastExists(rows); }
      var m :| IsLeast(m, rows);
      [m] + SortRows(rows - {m})
  }

  /** Key order leaves no choice: a sorted sequence is determined by what it contains. */
  lemma {:induction false} SortedUnique(a: seq<Row>, b: seq<Row>)
    requires Sorted(a) && Sorted(b)
    requires forall r :: r in a <==> r in b
    ensures a == b
  {
    EmptyTogether(a, b);
    if a != [] {
      hide Less;
      assert a[0] in a && b[0] in b;
      var i :| 0 <= i < |b| && b[i] == a[0];
      var j :| 0 <= j < |a| && a[j] == b[0];
      KeyOrder(a[0].key, b[0].key);
      assert i == 0;
      TailContains(a, b);
      TailContains(b, a);
      SortedUnique(a[1..], b[1..]);
      assert a == [a[0]] + a[1..] && b == [b[0]] + b[1..];
    }
  }

  lemma EmptyTogether(a: seq<Row>, b: seq<Row>)
    requires forall r :: r in a <==> r in b
    ensures a == [] <==> b == []
  {
    if a != [] { assert a[0] in b; }
    if b != [] { assert b[0] in a; }
  }

  lemma TailContains(a: seq<Row>, b: seq<Row>)
    requires Sorted(a) && a != [] && b != [] && a[0] == b[0]
    requires forall r :: r in a ==> r in b
    ensures forall r :: r in a[1..] ==> r in b[1..]
  {
    hide Less;
    forall r | r in a[1..] ensures r in b[1..] {
      var k :| 0 <= k < |a[1..]| && a[1..][k] == r;
      assert a[k + 1] == r && Less(a[0].key, r.key);
      KeyOrder(a[0].key, r.key);
      assert r in a;
      var m :| 0 <= m < |b| && b[m] == r;
      assert b[1..][m - 1] == r;
    }
  }

  ghost function SelectedRows(t: Table, f: Filter, after: Option<Key>): (s: set<Row>)
    requires IdsMatch(t)
    ensures forall r :: r in s <==> Selected(t, f, after, r)
  {
    set id | id in t && Matches(t[id], f) && (after.Some? ==> Less(after.value, t[id].key)) :: t[id]
  }

  /** The matching rows of a table past a key, in key order. */
  ghost function Listing(t: Table, f: Filter, after: Option<Key>): (s: seq<Row>)
    requires Coherent(t)
    ensures Lists(t, f, after, s)
  {
    SortRows(SelectedRows(t, f, after))
  }

  lemma ListingUnique(t: Table, f: Filter, after: Option<Key>, s: seq<Row>)
    requires Coherent(t) && Lists(t, f, after, s)
    ensures s == Listing(t, f, after)
  {
    SortedUnique(s, Listing(t, f, after));
  }

  // ----- one page -----

  function EffectiveLimit(limit: int): (n: nat)
    ensures n > 0
  {
    if limit <= 0 then DEFAULT_LIMIT else limit
  }

  function CutPage(all: seq<Row>, limit: int): Page {
    var end := if EffectiveLimit(limit) < |all| then EffectiveLimit(limit) else |all|;
    Page(all[..end], if end < |all| then EncodeCursor(all[end - 1].key) else "")
  }

  /** The key a cursor stands for; the empty cursor stands before every key. */
  function AfterOf(cursor: string): Option<Key> {
    if cursor == "" then None else ParseCursor(cursor)
  }

  predicate ValidCursor(cursor: string) { ParseCursor(cursor).Some? }

  ghost function ListPage(t: Table, f: Filter, limit: int, cursor: string): Result<Page, RepoError>
    requires Coherent(t)
  {
    if !ValidCursor(cursor) then Err(InvalidCursor)
    else Ok(CutPage(Listing(t, f, AfterOf(cursor)), limit))
  }

  /** What one page promises about the rows it returns and about the rows it leaves. */
  lemma PageCovers(t: Table, f: Filter, limit: int, cursor: string)
    requires WellFormed(t) && ValidCursor(cursor)
    ensures var p := ListPage(t, f, limit, cursor).value;
      && Sorted(p.rows)
      && (forall r :: r in p.rows ==> Selected(t, f, AfterOf(cursor), r))
      && (p.next == "" ==> forall r :: Selected(t, f, AfterOf(cursor), r) ==> r in p.rows)
      && (p.next != "" ==>
            && p.rows != []
            && ValidCursor(p.next)
            && AfterOf(p.next) == Some(p.rows[|p.rows| - 1].key)
            && forall r :: Selected(t, f, AfterOf(cursor), r) ==> r in p.rows || Selected(t, f, AfterOf(p.next), r))
  {
    hide Less, EncodeCursor, ParseCursor, Matches, EffectiveLimit, Listing;
    var all := Listing(t, f, AfterOf(cursor));
    var p := CutPage(all, limit);
    if p.next != "" {
      var end := |p.rows|;
      assert all[end - 1] in all;
      CursorRoundTrip(all[end - 1].key);
      PrefixCovers(t, f, AfterOf(cursor), all, end);
    }
  }

  lemma PrefixCovers(t: Table, f: Filter, after: Option<Key>, all: seq<Row>, end: nat)
    requires Lists(t, f, after, all) && 0 < end <= |all|
    ensures forall r :: Selected(t, f, after, r) ==> r in all[..end] || Selected(t, f, Some(all[end - 1].key), r)
  {
    hide Less, Matches;
    forall r | Selected(t, f, after, r) ensures r in all[..end] || Less(all[end - 1].key, r.key) {
      var i :| 0 <= i < |all| && all[i] == r;
      if i < end { assert all[..end][i] == r; } else { assert Less(all[end - 1].key, all[i].key); }
    }
  }

  // ----- a scan over a table that may change between pages -----

  /** pages[i] was read from tables[i] with cursors[i] and returned cursors[i + 1]. */
  ghost predicate IsScan(tables: seq<Table>, f: Filter, limit: int, cursors: seq<string>, pages: seq<seq<Row>>) {
    && |tables| == |pages| && |cursors| == |pages| + 1
    && cursors[0] == ""
    && (forall i :: 0 <= i < |tables| ==> WellFormed(tables[i]))
    && (forall i :: 0 < i < |pages| ==> cursors[i] != "")
    && forall i :: 0 <= i < |pages| ==> PageRead(tables[i], f, limit, cursors[i], pages[i], cursors[i + 1])
  }

  /** This page, with this next cursor, is what the table gives for this cursor. */
  ghost predicate PageRead(t: Table, f: Filter, limit: int, cursor: string, rows: seq<Row>, next: string) {
    WellFormed(t) && ListPage(t, f, limit, cursor) == Ok(Page(rows, next))
  }

  lemma ScanPage(tables: seq<Table>, f: Filter, limit: int, cursors: seq<string>, pages: seq<seq<Row>>, i: nat)
    requires IsScan(tables, f, limit, cursors, pages) && i < |pages|
    ensures PageRead(tables[i], f, limit, cursors[i], pages[i], cursors[i + 1])
    ensures ValidCursor(cursors[i])
    ensures Sorted(pages[i])
    ensures forall r :: r in pages[i] ==> Selected(tables[i], f, AfterOf(cursors[i]), r)
    ensures cursors[i + 1] == "" ==> forall r :: Selected(tables[i], f, AfterOf(cursors[i]), r) ==> r in pages[i]
    ensures cursors[i + 1] != "" ==>
      && pages[i] != []
      && AfterOf(cursors[i + 1]) == Some(pages[i][|pages[i]| - 1].key)
      && forall r :: Selected(tables[i], f, AfterOf(cursors[i]), r) ==> r in pages[i] || Selected(tables[i], f, AfterOf(cursors[i + 1]), r)
  {
    assert PageRead(tables[i], f, limit, cursors[i], pages[i], cursors[i + 1]);
    PageCovers(tables[i], f, limit, cursors[i]);
  }

  ghost predicate Finished(cursors: seq<string>) {
    |cursors| > 1 && cursors[|cursors| - 1] == ""
  }

  /** Every key of an earlier page is below every key of a later one. */
  lemma {:induction false} PagesAreOrdered(tables: seq<Table>, f: Filter, limit: int, cursors: seq<string>, pages: seq<seq<Row>>, i: nat, j: nat)
    requires IsScan(tables, f, limit, cursors, pages) && i < j < |pages|
    ensures forall a, b :: a in pages[i] && b in pages[j] ==> Less(a.key, b.key)
    decreases j
  {
    hide Less, EncodeCursor, ParseCursor, Matches, ListPage;
    ScanPage(tables, f, limit, cursors, pages, i);
    ScanPage(tables, f, limit, cursors, pages, j);
    ScanPage(tables, f, limit, cursors, pages, j - 1);
    assert cursors[j] != "";
    var prev := pages[j - 1];
    var last := prev[|prev| - 1];
    forall a, b | a in pages[i] && b in pages[j] ensures Less(a.key, b.key) {
      assert Less(last.key, b.key);
      if i < j - 1 {
        PagesAreOrdered(tables, f, limit, cursors, pages, i, j - 1);
        assert last in prev;
        KeyTransitive(a.key, last.key, b.key);
      } else {
        var k :| 0 <= k < |prev| && prev[k] == a;
        if k < |prev| - 1 {
          assert Less(prev[k].key, last.key);
          KeyTransitive(a.key, last.key, b.key);
        }
      }
    }
  }

  lemma {:induction false} FlattenSorted(pages: seq<seq<Row>>)
    requires forall i :: 0 <= i < |pages| ==> Sorted(pages[i])
    requires forall i, j, a, b :: 0 <= i < j < |pages| && a in pages[i] && b in pages[j] ==> Less(a.key, b.key)
    ensures Sorted(Flatten(pages))
  {
    if pages != [] {
      var rest := pages[1..];
      forall i, j, a: Row, b: Row | 0 <= i < j < |rest| && a in rest[i] && b in rest[j] ensures Less(a.key, b.key) {
        assert a in pages[i + 1] && b in pages[j + 1];
      }
      FlattenSorted(rest);
      forall b | b in Flatten(rest) ensures exists j :: 0 < j < |pages| && b in pages[j] {
        FlattenContains(rest, b);
        var j :| 0 <= j < |rest| && b in rest[j];
        assert b in pages[j + 1];
      }
      var all := Flatten(pages);
      forall i, j | 0 <= i < j < |all| ensures Less(all[i].key, all[j].key) {
        if i < |pages[0]| <= j {
          assert all[i] in pages[0] && all[j] in Flatten(rest);
        }
      }
    }
  }

  /** Whatever happens to the table between pages, a scan never returns a key twice. */
  lemma ScanNeverRepeats(tables: seq<Table>, f: Filter, limit: int, cursors: seq<string>, pages: seq<seq<Row>>)
    requires IsScan(tables, f, limit, cursors, pages)
    ensures Sorted(Flatten(pages))
    ensures forall i, j :: 0 <= i < j < |Flatten(pages)| ==> Flatten(pages)[i].key != Flatten(pages)[j].key
  {
    forall i | 0 <= i < |pages| ensures Sorted(pages[i]) {
      ScanPage(tables, f, limit, cursors, pages, i);
    }
    forall i, j, a, b | 0 <= i < j < |pages| && a in pages[i] && b in pages[j] ensures Less(a.key, b.key) {
      PagesAreOrdered(tables, f, limit, cursors, pages, i, j);
    }
    FlattenSorted(pages);
    var all := Flatten(pages);
    forall i, j | 0 <= i < j < |all| ensures all[i].key != all[j].key {
      KeyOrder(all[i].key, all[j].key);
    }
  }

  /** The row was there, with this key and matching, each time a page was read. */
  ghost predicate PresentThroughout(tables: seq<Table>, f: Filter, id: Id, k: Key) {
    forall i :: 0 <= i < |tables| ==> id in tables[i] && tables[i][id].key == k && Matches(tables[i][id], f)
  }

  /** A row that lies past the cursor is on the page, or past the next cursor. */
  lemma ScanMovesOn(tables: seq<Table>, f: Filter, limit: int, cursors: seq<string>, pages: seq<seq<Row>>, id: Id, k: Key, n: nat)
    requires IsScan(tables, f, limit, cursors, pages) && PresentThroughout(tables, f, id, k) && n < |pages|
    requires n == 0 || (AfterOf(cursors[n]).Some? && Less(AfterOf(cursors[n]).value, k))
    ensures
      || tables[n][id] in pages[n]
      || (cursors[n + 1] != "" && AfterOf(cursors[n + 1]).Some? && Less(AfterOf(cursors[n + 1]).value, k))
  {
    ScanPage(tables, f, limit, cursors, pages, n);
    assert n == 0 ==> AfterOf(cursors[n]).None?;
    assert tables[n][id].id == id;
    hide IsScan, Less, Matches, Sorted, AfterOf;
    assert Selected(tables[n], f, AfterOf(cursors[n]), tables[n][id]);
  }

  /** Past n pages, a row present throughout has been returned or still lies past the cursor. */
  lemma {:induction false} ScanProgress(tables: seq<Table>, f: Filter, limit: int, cursors: seq<string>, pages: seq<seq<Row>>, id: Id, k: Key, n: nat)
    requires IsScan(tables, f, limit, cursors, pages) && PresentThroughout(tables, f, id, k) && n <= |pages|
    ensures
      || (exists i :: 0 <= i < n && tables[i][id] in pages[i])
      || n == 0
      || (cursors[n] != "" && AfterOf(cursors[n]).Some? && Less(AfterOf(cursors[n]).value, k))
  {
    hide Less, PageRead, WellFormed, Matches, AfterOf;
    if n > 0 {
      ScanProgress(tables, f, limit, cursors, pages, id, k, n - 1);
      if forall i :: 0 <= i < n - 1 ==> tables[i][id] !in pages[i] {
        ScanMovesOn(tables, f, limit, cursors, pages, id, k, n - 1);
      }
    }
  }

  /** A finished scan returned every row that was present and matching throughout. */
  lemma ScanMissesNothing(tables: seq<Table>, f: Filter, limit: int, cursors: seq<string>, pages: seq<seq<Row>>, id: Id, k: Key)
    requires IsScan(tables, f, limit, cursors, pages) && Finished(cursors)
    requires PresentThroughout(tables, f, id, k)
    ensures exists i :: 0 <= i < |pages| && tables[i][id] in pages[i]
  {
    ScanProgress(tables, f, limit, cursors, pages, id, k, |pages|);
  }

  /** Everything a scan returned was stored and matching when its page was read. */
  lemma ScanInventsNothing(tables: seq<Table>, f: Filter, limit: int, cursors: seq<string>, pages: seq<seq<Row>>, i: nat, r: Row)
    requires IsScan(tables, f, limit, cursors, pages) && i < |pages| && r in pages[i]
    ensures r.id in tables[i] && tables[i][r.id] == r && Matches(r, f)
  {
    ScanPage(tables, f, limit, cursors, pages, i);
  }

  // ----- a scan over a table that stays the same -----

  lemma SuffixSelected(t: Table, f: Filter, after: Option<Key>, all: seq<Row>, n: nat, i: nat)
    requires Lists(t, f, after, all) && 0 < n <= i < |all|
    ensures Selected(t, f, Some(all[n - 1].key), all[i])
  {
    hide Less, Matches;
  }

  lemma SuffixCovers(t: Table, f: Filter, after: Option<Key>, all: seq<Row>, n: nat, r: Row)
    requires Lists(t, f, after, all) && 0 < n <= |all| && Selected(t, f, Some(all[n - 1].key), r)
    ensures r in all[n..]
  {
    hide Less, Matches;
    var last := all[n - 1];
    assert Selected(t, f, after, last);
    if after.Some? { KeyTransitive(after.value, last.key, r.key); }
    assert Selected(t, f, after, r);
    var i :| 0 <= i < |all| && all[i] == r;
    KeyOrder(last.key, r.key);
    assert i < n - 1 ==> Less(r.key, last.key);
    assert all[n..][i - n] == r;
  }

  /** Listing from one of its own keys gives what follows it. */
  lemma ListingSuffix(t: Table, f: Filter, after: Option<Key>, n: nat)
    requires Coherent(t) && 0 < n <= |Listing(t, f, after)|
    ensures var all := Listing(t, f, after);
      Listing(t, f, Some(all[n - 1].key)) == all[n..]
  {
    hide Less, Matches, Selected, Listing, Coherent;
    var all := Listing(t, f, after);
    var last, rest := Some(all[n - 1].key), all[n..];
    assert Lists(t, f, last, rest) by {
      forall i | 0 <= i < |rest| ensures Selected(t, f, last, rest[i]) { SuffixSelected(t, f, after, all, n, n + i); }
      forall r | Selected(t, f, last, r) ensures r in rest { SuffixCovers(t, f, after, all, n, r); }
    }
    hide Lists;
    ListingUnique(t, f, last, rest);
  }

  /** Each page leaves strictly fewer rows past its cursor than there were before it. */
  lemma PageShrinks(t: Table, f: Filter, limit: int, cursor: string)
    requires WellFormed(t) && ValidCursor(cursor)
    ensures var p := ListPage(t, f, limit, cursor).value;
      p.next != "" ==>
        && ValidCursor(p.next)
        && Listing(t, f, AfterOf(cursor)) == p.rows + Listing(t, f, AfterOf(p.next))
        && |p.rows| == EffectiveLimit(limit)
  {
    hide EncodeCursor, ParseCursor, EffectiveLimit, Coherent, NulFree, Lists, Listing;
    var all := Listing(t, f, AfterOf(cursor));
    var p := CutPage(all, limit);
    if p.next != "" {
      PageCovers(t, f, limit, cursor);
      ListingSuffix(t, f, AfterOf(cursor), |p.rows|);
      assert all == p.rows + all[|p.rows|..];
    }
  }

  /** Read pages until the cursor comes back empty. It ends because each page leaves fewer rows. */
  ghost function ReadAll(t: Table, f: Filter, limit: int, cursor: string): seq<Row>
    requires WellFormed(t) && ValidCursor(cursor)
    decreases |Listing(t, f, AfterOf(cursor))|
  {
    PageShrinks(t, f, limit, cursor);
    var p := ListPage(t, f, limit, cursor).value;
    if p.next == "" then p.rows else p.rows + ReadAll(t, f, limit, p.next)
  }

  /** On a fixed table, reading page by page is one sorted filter, whatever the page size. */
  lemma {:induction false} PagesRefineOneListing(t: Table, f: Filter, limit: int, cursor: string)
    requires WellFormed(t) && ValidCursor(cursor)
    ensures ReadAll(t, f, limit, cursor) == Listing(t, f, AfterOf(cursor))
    decreases |Listing(t, f, AfterOf(cursor))|
  {
    PageShrinks(t, f, limit, cursor);
    var p := ListPage(t, f, limit, cursor).value;
    if p.next != "" {
      PagesRefineOneListing(t, f, limit, p.next);
    }
  }

  // ----- a page, by its contents -----

  /** What a filter and a cursor ask of a stored row. */
  ghost predicate Wanted(t: Table, f: Filter, cursor: string, r: Row) {
    && r.id in t && t[r.id] == r
    && (f.ns != [] ==> r.key.ns == f.ns)
    && (f.agentType != "" ==> r.agentType == f.agentType)
    && (f.infraType != "" ==> r.infraType == f.infraType)
    && (f.status.Some? ==> r.status == f.status.value)
    && (forall k :: k in f.labels ==> if k in r.labels then r.labels[k] == f.labels[k] else f.labels[k] == "")
    && (cursor != "" ==> exists k: Key :: Base64.Decode(cursor) == Some(k.ns + [0] + k.alias) && 0 !in k.ns && KeyPrecedes(k, r.key))
  }

  lemma FirstCut(a: Key, b: Key)
    requires a.ns + [0] + a.alias == b.ns + [0] + b.alias && 0 !in a.ns && 0 !in b.ns
    ensures a == b
  {
    var raw := a.ns + [0] + a.alias;
    assert raw[|a.ns|] == 0 && raw[|b.ns|] == 0;
    assert forall i :: 0 <= i < |a.ns| ==> raw[i] == a.ns[i];
    assert forall i :: 0 <= i < |b.ns| ==> raw[i] == b.ns[i];
    assert |a.ns| == |b.ns|;
    assert a.ns == raw[..|a.ns|] == b.ns && a.alias == raw[|a.ns| + 1..] == b.alias;
  }

  lemma SelectedIsWanted(t: Table, f: Filter, cursor: string, r: Row)
    requires ValidCursor(cursor)
    ensures Selected(t, f, AfterOf(cursor), r) <==> Wanted(t, f, cursor, r)
  {
    CursorParses(cursor);
    if cursor != "" {
      hide ParseCursor;
      var after := AfterOf(cursor).value;
      LessIsByBytes(after, r.key);
      hide Less, KeyPrecedes;
      if k: Key :| Base64.Decode(cursor) == Some(k.ns + [0] + k.alias) && 0 !in k.ns && KeyPrecedes(k, r.key) {
        FirstCut(after, k);
      }
    }
  }

  lemma SortedIsByBytes(s: seq<Row>)
    ensures Sorted(s) <==> forall i, j :: 0 <= i < j < |s| ==> KeyPrecedes(s[i].key, s[j].key)
  {
    forall i, j | 0 <= i < j < |s| ensures Less(s[i].key, s[j].key) <==> KeyPrecedes(s[i].key, s[j].key) {
      LessIsByBytes(s[i].key, s[j].key);
    }
    hide Less, KeyPrecedes;
  }

  /**
   A page in full: the first wanted rows in byte order, as many as the limit allows, fifty when it is not positive;
   and a cursor for the last of them exactly when a wanted row is left.
   */
  lemma PageIs(t: Table, f: Filter, limit: int, cursor: string)
    requires Coherent(t)
    ensures var r, most := ListPage(t, f, limit, cursor), if limit <= 0 then 50 else limit;
      && (r.Err? <==> cursor != "" && (Base64.Decode(cursor).None? || 0 !in Base64.Decode(cursor).value))
      && (r.Err? ==> r.error == InvalidCursor)
      && (r.Ok? ==>
            var rows, next := r.value.rows, r.value.next;
            && (forall i, j :: 0 <= i < j < |rows| ==> KeyPrecedes(rows[i].key, rows[j].key))
            && (forall x :: x in rows ==> Wanted(t, f, cursor, x))
            && |rows| <= most
            && (next == "" <==> forall x :: Wanted(t, f, cursor, x) ==> x in rows)
            && (next != "" ==>
                  var last := rows[|rows| - 1].key;
                  && |rows| == most
                  && Base64.Decode(next) == Some(last.ns + [0] + last.alias)
                  && forall x :: Wanted(t, f, cursor, x) ==> x in rows || KeyPrecedes(last, x.key)))
  {
    CursorParses(cursor);
    hide ParseCursor, Less, KeyPrecedes, Wanted, Selected, EncodeCursor, Coherent, CutPage, Sorted, AfterOf;
    if ValidCursor(cursor) {
      var all := Listing(t, f, AfterOf(cursor));
      forall x ensures x in all <==> Wanted(t, f, cursor, x) { SelectedIsWanted(t, f, cursor, x); ListingHas(t, f, cursor, x); }
      SortedIsByBytes(all);
      hide Listing;
      CutIs(all, limit);
    }
  }

  lemma ListingHas(t: Table, f: Filter, cursor: string, x: Row)
    requires Coherent(t) && ValidCursor(cursor)
    ensures x in Listing(t, f, AfterOf(cursor)) <==> Selected(t, f, AfterOf(cursor), x)
  {
    hide ParseCursor, Less, Matches;
    var all := Listing(t, f, AfterOf(cursor));
    if x in all { var i :| 0 <= i < |all| && all[i] == x; }
  }

  /** The cut of an ordered listing. */
  lemma CutIs(all: seq<Row>, limit: int)
    requires forall i, j :: 0 <= i < j < |all| ==> KeyPrecedes(all[i].key, all[j].key)
    ensures var p, most := CutPage(all, limit), if limit <= 0 then 50 else limit;
      && (forall i, j :: 0 <= i < j < |p.rows| ==> KeyPrecedes(p.rows[i].key, p.rows[j].key))
      && (forall x :: x in p.rows ==> x in all)
      && |p.rows| <= most
      && (p.next == "" <==> forall x :: x in all ==> x in p.rows)
      && (p.next != "" ==>
            var last := p.rows[|p.rows| - 1].key;
            && |p.rows| == most
            && Base64.Decode(p.next) == Some(last.ns + [0] + last.alias)
            && forall x :: x in all ==> x in p.rows || KeyPrecedes(last, x.key))
  {
    hide KeyPrecedes, EncodeCursor, CutPage;
    PageOf(all, limit);
    var p := CutPage(all, limit);
    if p.next != "" {
      CutLeaves(all, |p.rows|);
      CursorIs(p.rows[|p.rows| - 1].key);
    }
  }

  lemma PageOf(all: seq<Row>, limit: int)
    ensures var p, most := CutPage(all, limit), if limit <= 0 then 50 else limit;
      && |p.rows| <= most && p.rows == all[..|p.rows|]
      && (p.next == "" ==> p.rows == all)
      && (p.next != "" ==> |p.rows| == most < |all| && p.next == EncodeCursor(p.rows[|p.rows| - 1].key))
  {
    hide EncodeCursor;
  }

  lemma CutLeaves(all: seq<Row>, end: nat)
    requires 0 < end < |all| && forall i, j :: 0 <= i < j < |all| ==> KeyPrecedes(all[i].key, all[j].key)
    ensures all[end] in all && all[end] !in all[..end]
    ensures forall x :: x in all ==> x in all[..end] || KeyPrecedes(all[end - 1].key, x.key)
  {
    hide KeyPrecedes;
    forall i | 0 <= i < end ensures all[i] != all[end] { NotBefore(all[i].key, all[end].key); }
    forall x | x in all && x !in all[..end] ensures KeyPrecedes(all[end - 1].key, x.key) {
      var i :| 0 <= i < |all| && all[i] == x;
    }
  }

  lemma NotBefore(a: Key, b: Key)
    requires KeyPrecedes(a, b)
    ensures a != b
  {
    LessIsByBytes(a, b);
    KeyOrder(a, b);
  }
}
