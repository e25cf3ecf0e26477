/** The in-memory workspace repository, each method one mutex-held region. */
module WorkspaceRepository {
  import opened Common
  import opened Keys
  import opened Workspaces
  import opened Paging
  import Insertion

  /** A write reports exactly the specification's outcome, and a refused write changes nothing. */
  ghost predicate Applied(wasClosed: bool, before: Table, outcome: Written, after: Table, error: Option<RepoError>) {
    if wasClosed then error == Some(Closed) && after == before
    else match outcome
      case Ok(t) => error == None && after == t
      case Err(e) => error == Some(e) && after == before
  }

  /** The alias index and the rows name each other. */
  ghost predicate Indexed(t: Table, index: map<Key, Id>) {
    && (forall k :: k in index ==> index[k] in t && t[index[k]].key == k)
    && (forall a :: a in t ==> t[a].key in index)
  }

  lemma ReplacedRow(t: Table, index: map<Key, Id>, id: Id, row: Row)
    requires Coherent(t) && Indexed(t, index) && id in t && row.id == id && row.key == t[id].key
    ensures Coherent(t[id := row]) && Indexed(t[id := row], index)
  {}

  class Repository {
    var byID: map<Id, Row>
    var idByAliasKey: map<Key, Id>
    var closed: bool

    ghost predicate Valid()
      reads this
    {
      Coherent(byID) && Indexed(byID, idByAliasKey)
    }

    constructor ()
      ensures Valid() && byID == map[] && !closed
    {
      byID, idByAliasKey, closed := map[], map[], false;
    }

    method Insert(w: Row) returns (error: Option<RepoError>)
      requires Valid()
      modifies this
      ensures Valid() && closed == old(closed)
      ensures Applied(closed, old(byID), InsertRow(old(byID), w), byID, error)
      ensures error.None? <==>
        && !closed && w.id !in old(byID) && w.status in {Init, Healthy, Failed}
        && forall a :: a in old(byID) ==> old(byID)[a].key != w.key
      ensures byID == if error.None? then old(byID)[w.id := w] else old(byID)
    {
      if closed { return Some(Closed); }
      if w.id in byID { return Some(DuplicateId); }
      if !Known(w.status) { return Some(InvalidTransition); }
      if w.key in idByAliasKey {
        assert AliasTaken(byID, w.key);
        return Some(AliasConflict);
      }
      byID := byID[w.id := w];
      idByAliasKey := idByAliasKey[w.key := w.id];
      return None;
    }

    method Get(id: Id) returns (r: Result<Row, RepoError>)
      requires Valid()
      ensures r == if closed then Err(Closed) else if id in byID then Ok(byID[id]) else Err(NotFound)
      ensures r.Ok? ==> r.value.id == id
    {
      if closed { return Err(Closed); }
      if id !in byID { return Err(NotFound); }
      return Ok(byID[id]);
    }

    /** The alias index finds a row exactly when some row holds that key. */
    method GetByAlias(k: Key) returns (r: Result<Row, RepoError>)
      requires Valid()
      ensures closed ==> r == Err(Closed)
      ensures !closed ==> (r.Ok? <==> AliasTaken(byID, k))
      ensures r.Ok? ==> r.value.key == k && r.value.id in byID && byID[r.value.id] == r.value
      ensures !closed && r.Err? ==> r == Err(NotFound)
    {
      if closed { return Err(Closed); }
      if k !in idByAliasKey { return Err(NotFound); }
      return Ok(byID[idByAliasKey[k]]);
    }

    method Update(w: Row) returns (error: Option<RepoError>)
      requires Valid()
      modifies this
      ensures Valid() && closed == old(closed)
      ensures Applied(closed, old(byID), UpdateRow(old(byID), w), byID, error)
      ensures error.None? <==>
        && !closed && w.id in old(byID) && w.status == old(byID)[w.id].status && w.status in {Init, Healthy, Failed}
        && w.key == old(byID)[w.id].key && w.agentType == old(byID)[w.id].agentType && w.infraType == old(byID)[w.id].infraType
      ensures byID == if error.None? then old(byID)[w.id := w.(createdAt := old(byID)[w.id].createdAt)] else old(byID)
    {
      if closed { return Some(Closed); }
      if w.id !in byID { return Some(NotFound); }
      var existing := byID[w.id];
      if w.status != existing.status { return Some(InvalidTransition); }
      if !Known(w.status) { return Some(InvalidTransition); }
      if !SameImmutable(existing, w) { return Some(Immutable); }
      byID := byID[w.id := w.(createdAt := existing.createdAt)];
      return None;
    }

    method UpdateStatusCAS(id: Id, writer: Writer, expected: Status, next: Status, failure: Option<Failure>, probedAt: int)
      returns (error: Option<RepoError>)
      requires Valid()
      modifies this
      ensures Valid() && closed == old(closed)
      ensures Applied(closed, old(byID), CompareAndSet(old(byID), id, writer, expected, next, failure, probedAt), byID, error)
      ensures error.None? <==>
        && !closed && id in old(byID) && old(byID)[id].status == expected
        && match writer
           case ByController => expected == Init && next in {Healthy, Failed}
           case ByScheduler => (expected in {Init, Healthy} && next == Failed) || (expected == Failed && next == Healthy)
           case ByOther => false
      ensures error == Some(PreconditionFailed) <==> !closed && id in old(byID) && old(byID)[id].status != expected
      ensures byID == if error.Some? then old(byID)
        else old(byID)[id := old(byID)[id].(status := next, lastProbeAt := probedAt, error := if next == Healthy then None else failure)]
    {
      assert id in byID ==> byID[id].id == id;
      hide TransitionAllowed, Known, Coherent, Indexed;
      if closed { return Some(Closed); }
      if id !in byID { return Some(NotFound); }
      var row := byID[id];
      if row.status != expected { return Some(PreconditionFailed); }
      if !Known(next) { return Some(InvalidTransition); }
      if !TransitionAllowed(writer, expected, next) { return Some(InvalidTransition); }
      row := row.(status := next, lastProbeAt := probedAt);
      if next == Healthy {
        row := row.(error := None);
      } else {
        row := row.(error := failure);
      }
      ReplacedRow(byID, idByAliasKey, id, row);
      byID := byID[id := row];
      return None;
    }

    method Delete(id: Id) returns (error: Option<RepoError>)
      requires Valid()
      modifies this
      ensures Valid() && closed == old(closed)
      ensures Applied(closed, old(byID), DeleteRow(old(byID), id), byID, error)
      ensures error == if closed then Some(Closed) else if id in old(byID) then None else Some(NotFound)
      ensures byID == if error.None? then old(byID) - {id} else old(byID)
    {
      if closed { return Some(Closed); }
      if id !in byID { return Some(NotFound); }
      var row := byID[id];
      byID := byID - {id};
      idByAliasKey := idByAliasKey - {row.key};
      return None;
    }

    method Close()
      requires Valid()
      modifies this
      ensures Valid() && closed && byID == old(byID)
    {
      closed := true;
    }

    /** The matching rows past the cursor, in map order. */
    method Filtered(f: Filter, after: Option<Key>) returns (filtered: seq<Row>)
      requires Valid()
      ensures forall i :: 0 <= i < |filtered| ==> Selected(byID, f, after, filtered[i])
      ensures forall i, j :: 0 <= i < j < |filtered| ==> filtered[i].id != filtered[j].id
      ensures forall r :: Selected(byID, f, after, r) ==> r in filtered
    {
      hide Less, Matches, KeysDistinct, Indexed;
      filtered := [];
      var pending := byID.Keys;
      while pending != {}
        invariant pending <= byID.Keys
        invariant forall i :: 0 <= i < |filtered| ==> Selected(byID, f, after, filtered[i]) && filtered[i].id !in pending
        invariant forall i, j :: 0 <= i < j < |filtered| ==> filtered[i].id != filtered[j].id
        invariant forall r :: Selected(byID, f, after, r) && r.id !in pending ==> r in filtered
        decreases |pending|
      {
        var id :| id in pending;
        pending := pending - {id};
        var row := byID[id];
        if Matches(row, f) && (after.None? || Less(after.value, row.key)) {
          filtered := filtered + [row];
          assert filtered[|filtered| - 1] == row;
        }
      }
    }

    /** List builds the matching rows in map order, sorts them, and cuts the page. */
    method List(f: Filter, limit: int, cursor: string) returns (r: Result<Page, RepoError>)
      requires Valid()
      ensures r == if closed then Err(Closed) else ListPage(byID, f, limit, cursor)
    {
      hide Less, Matches, CutPage, ParseCursor, Listing, Selected, KeysDistinct;
      if closed { return Err(Closed); }
      var start := ParseCursor(cursor);
      if start.None? { return Err(InvalidCursor); }
      var filtered := Filtered(f, if cursor == "" then None else start);
      ghost var after := AfterOf(cursor);
      SelectedFacts(byID, f, after, filtered);
      var sorted := SortByKey(filtered);
      assert forall i :: 0 <= i < |sorted| ==> sorted[i] in sorted && sorted[i] in filtered;
      ListingUnique(byID, f, after, sorted);
      return Ok(CutPage(sorted, limit));
    }

    /** The scheduler's full listing: page after page until the cursor comes back empty. */
    method ListAll(pageSize: int) returns (r: Result<seq<Row>, RepoError>)
      requires Valid() && NulFree(byID)
      ensures r == if closed then Err(Closed) else Ok(Listing(byID, EVERYTHING, None))
    {
      hide EncodeCursor, ParseCursor, EffectiveLimit, Coherent, NulFree, Lists, Listing, CutPage;
      var cursor, rows := "", [];
      assert ValidCursor("") by { EmptyCursorValid(); }
      PagesRefineOneListing(byID, EVERYTHING, pageSize, cursor);
      while true
        invariant ValidCursor(cursor)
        invariant rows + ReadAll(byID, EVERYTHING, pageSize, cursor) == Listing(byID, EVERYTHING, None)
        invariant closed ==> rows == [] && cursor == ""
        decreases |Listing(byID, EVERYTHING, AfterOf(cursor))|
      {
        var page := List(EVERYTHING, pageSize, cursor);
        if page.Err? { return Err(page.error); }
        PageShrinks(byID, EVERYTHING, pageSize, cursor);
        rows := rows + page.value.rows;
        if page.value.next == "" { return Ok(rows); }
        cursor := page.value.next;
      }
    }

    /** The create path's check: some stored localdir row already has this cleaned directory. */
    method DirectoryTaken(want: string) returns (r: Result<bool, RepoError>)
      requires Valid() && NulFree(byID)
      ensures closed ==> r == Err(Closed)
      ensures !closed ==> r == Ok(DirTaken(byID, want))
    {
      hide EncodeCursor, ParseCursor, EffectiveLimit, Coherent, NulFree, Lists, Listing, CutPage, Less;
      var f := EVERYTHING.(infraType := LOCALDIR);
      var cursor := "";
      assert ValidCursor("") by { EmptyCursorValid(); }
      while true
        invariant ValidCursor(cursor)
        invariant forall r :: Selected(byID, f, None, r) && DirOf(r) == Some(want) ==> Selected(byID, f, AfterOf(cursor), r)
        invariant closed ==> cursor == ""
        decreases |Listing(byID, f, AfterOf(cursor))|
      {
        var page := List(f, 200, cursor);
        if page.Err? { return Err(page.error); }
        PageCovers(byID, f, 200, cursor);
        PageShrinks(byID, f, 200, cursor);
        var i := 0;
        while i < |page.value.rows|
          invariant i <= |page.value.rows|
          invariant forall k :: 0 <= k < i ==> DirOf(page.value.rows[k]) != Some(want)
        {
          if DirOf(page.value.rows[i]) == Some(want) {
            assert page.value.rows[i] in page.value.rows;
            return Ok(true);
          }
          i := i + 1;
        }
        if page.value.next == "" {
          forall id | id in byID ensures DirOf(byID[id]) != Some(want) {
            if DirOf(byID[id]) == Some(want) {
              DirSelected(byID, id);
            }
          }
          return Ok(false);
        }
        cursor := page.value.next;
      }
    }
  }

  lemma SelectedFacts(t: Table, f: Filter, after: Option<Key>, rows: seq<Row>)
    requires Coherent(t)
    requires forall i :: 0 <= i < |rows| ==> Selected(t, f, after, rows[i])
    requires forall i, j :: 0 <= i < j < |rows| ==> rows[i].id != rows[j].id
    ensures forall i, j :: 0 <= i < j < |rows| ==> rows[i].key != rows[j].key
  {
    hide Less, Matches;
  }

  lemma DirSelected(t: Table, id: Id)
    requires Coherent(t) && id in t && DirOf(t[id]).Some?
    ensures Selected(t, EVERYTHING.(infraType := LOCALDIR), None, t[id])
  {}

  lemma EmptyCursorValid()
    ensures ValidCursor("") && AfterOf("") == None
  {}

  ghost predicate DirTaken(t: Table, want: string) {
    exists id :: id in t && DirOf(t[id]) == Some(want)
  }

  /** slices.SortFunc by key, on rows whose keys differ. */
  method SortByKey(rows: seq<Row>) returns (s: seq<Row>)
    requires forall i, j :: 0 <= i < j < |rows| ==> rows[i].key != rows[j].key
    ensures Sorted(s)
    ensures forall r :: r in s <==> r in rows
  {
    s := [];
    var n := 0;
    while n < |rows|
      invariant n <= |rows|
      invariant Sorted(s)
      invariant forall r :: r in s <==> r in rows[..n]
    {
      var x := rows[n];
      var at := 0;
      while at < |s| && Less(s[at].key, x.key)
        invariant at <= |s|
        invariant forall k :: 0 <= k < at ==> Less(s[k].key, x.key)
      {
        at := at + 1;
      }
      InsertKeepsOrder(s, at, x, rows, n);
      s := s[..at] + [x] + s[at..];
      n := n + 1;
    }
    assert rows[..n] == rows;
  }

  lemma InsertKeepsOrder(s: seq<Row>, at: nat, x: Row, rows: seq<Row>, n: nat)
    requires n < |rows| && x == rows[n] && at <= |s| && Sorted(s)
    requires forall i, j :: 0 <= i < j < |rows| ==> rows[i].key != rows[j].key
    requires forall r :: r in s <==> r in rows[..n]
    requires forall k :: 0 <= k < at ==> Less(s[k].key, x.key)
    requires at < |s| ==> !Less(s[at].key, x.key)
    ensures Sorted(s[..at] + [x] + s[at..])
    ensures forall r :: r in s[..at] + [x] + s[at..] <==> r in rows[..n + 1]
  {
    hide Less;
    forall a, b, c | Less(a, b) && Less(b, c) ensures Less(a, c) { KeyTransitive(a, b, c); }
    forall k | 0 <= k < |s| ensures Less(s[k].key, x.key) || Less(x.key, s[k].key) {
      assert s[k] in rows[..n];
      KeyOrder(s[k].key, x.key);
    }
    Insertion.KeepsOrder(s, at, x, (a: Row, b: Row) => Less(a.key, b.key));
    Insertion.KeepsContents(rows, n, s, at);
  }
}
