/**
 Plugin upload and removal as a two-phase commit: a metadata row in the repository, a blob in the storage, and a
 rollback when the second write fails. Any call may fail and then changes nothing.
 */
module PluginCommit {
  import opened Common

  type Id = string

  datatype NameKey = NameKey(ns: string, name: string)

  datatype Row = Row(id: Id, key: NameKey, description: string, hash: string, size: nat, createdAt: int, updatedAt: int)

  datatype Blob = Blob(body: Text, hash: string, size: nat)

  datatype Error = NotFound | IdConflict | NameConflict | IdAndNameConflict | StorageNotFound | TooLarge | Unavailable

  const BODY_LIMIT: nat := 0x1000_0000

  // ----- the repository as a value -----

  datatype Index = Index(rows: map<Id, Row>, names: map<NameKey, Id>)

  /** Rows and names name each other. */
  ghost predicate IndexOk(ix: Index) {
    && (forall id :: id in ix.rows ==> ix.rows[id].id == id)
    && (forall id :: id in ix.rows ==> ix.rows[id].key in ix.names && ix.names[ix.rows[id].key] == id)
    && (forall k :: k in ix.names ==> ix.names[k] in ix.rows && ix.rows[ix.names[k]].key == k)
  }

  function InsertRow(ix: Index, row: Row): Result<Index, Error> {
    if row.id in ix.rows then Err(if ix.rows[row.id].key == row.key then IdAndNameConflict else IdConflict)
    else if row.key in ix.names then Err(NameConflict)
    else Ok(Index(ix.rows[row.id := row], ix.names[row.key := row.id]))
  }

  function UpdateRow(ix: Index, row: Row): Result<Index, Error> {
    if row.id !in ix.rows then Err(NotFound)
    else if row.key in ix.names && ix.names[row.key] != row.id then Err(NameConflict)
    else
      var was := ix.rows[row.id];
      Ok(Index(ix.rows[row.id := row.(createdAt := was.createdAt)], (ix.names - {was.key})[row.key := row.id]))
  }

  function DeleteRow(ix: Index, id: Id): Result<Index, Error> {
    if id !in ix.rows then Err(NotFound) else Ok(Index(ix.rows - {id}, ix.names - {ix.rows[id].key}))
  }

  lemma WritesKeepIndex(ix: Index, row: Row, id: Id)
    requires IndexOk(ix)
    ensures InsertRow(ix, row).Ok? ==> IndexOk(InsertRow(ix, row).value)
    ensures UpdateRow(ix, row).Ok? ==> IndexOk(UpdateRow(ix, row).value)
    ensures DeleteRow(ix, id).Ok? ==> IndexOk(DeleteRow(ix, id).value)
  {}

  // ----- the two calls as values -----

  datatype Store = Store(index: Index, blobs: map<Id, Blob>)

  const NOTHING := Store(Index(map[], map[]), map[])

  datatype Upload = Upload(key: NameKey, description: string, body: Text)

  /** Which of the calls fail on their own account. */
  datatype Faults = Faults(find: bool, read: bool, put: bool, write: bool, rollback: bool, cleanup: bool)

  type Digest = Text -> string

  function BlobOf(digest: Digest, body: Text): Blob { Blob(body, digest(body), |body|) }

  function RowOf(digest: Digest, up: Upload, id: Id, createdAt: int, now: int): Row {
    Row(id, up.key, up.description, digest(up.body), |up.body|, createdAt, now)
  }

  /** An upload over an existing plugin: new blob, new row, and the old blob again if the row is refused. */
  function Overwrite(digest: Digest, s: Store, up: Upload, now: int, f: Faults): (Store, Result<Row, Error>)
    requires up.key in s.index.names && s.index.names[up.key] in s.index.rows
  {
    var was := s.index.rows[s.index.names[up.key]];
    if f.read then (s, Err(Unavailable))
    else if was.id !in s.blobs then (s, Err(StorageNotFound))
    else if f.put then (s, Err(Unavailable))
    else if |up.body| > BODY_LIMIT then (s, Err(TooLarge))
    else
      var row := RowOf(digest, up, was.id, was.createdAt, now);
      var put := s.(blobs := s.blobs[was.id := BlobOf(digest, up.body)]);
      var w := if f.write then Err(Unavailable) else UpdateRow(s.index, row);
      if w.Ok? then (put.(index := w.value), Ok(row))
      else if f.rollback || |s.blobs[was.id].body| > BODY_LIMIT then (put, Err(w.error))
      else (s.(blobs := s.blobs[was.id := BlobOf(digest, s.blobs[was.id].body)]), Err(w.error))
  }

  /** An upload under a new name; the blob is taken away again if the row is refused. */
  function Add(digest: Digest, s: Store, up: Upload, id: Id, now: int, f: Faults): (Store, Result<Row, Error>) {
    if f.put then (s, Err(Unavailable))
    else if |up.body| > BODY_LIMIT then (s, Err(TooLarge))
    else
      var row := RowOf(digest, up, id, now, now);
      var put := s.(blobs := s.blobs[id := BlobOf(digest, up.body)]);
      var w := if f.write then Err(Unavailable) else InsertRow(s.index, row);
      if w.Ok? then (put.(index := w.value), Ok(row))
      else if f.cleanup then (put, Err(w.error))
      else (s.(blobs := s.blobs - {id}), Err(w.error))
  }

  function Create(digest: Digest, s: Store, up: Upload, id: Id, now: int, f: Faults): (Store, Result<Row, Error>)
    requires up.key in s.index.names ==> s.index.names[up.key] in s.index.rows
  {
    if f.find then (s, Err(Unavailable))
    else if up.key in s.index.names then Overwrite(digest, s, up, now, f)
    else Add(digest, s, up, id, now, f)
  }

  /** The row goes first; a blob that cannot be deleted is left behind. */
  function Remove(s: Store, id: Id, f: Faults): (Store, Result<(), Error>) {
    if f.find then (s, Err(Unavailable))
    else if id !in s.index.rows then (s, Err(NotFound))
    else if f.write then (s, Err(Unavailable))
    else
      var ix := DeleteRow(s.index, id).value;
      (Store(ix, if f.cleanup then s.blobs else s.blobs - {id}), Ok(()))
  }

  // ----- what is promised -----

  /** The blob is what the row says. */
  ghost predicate Backed(s: Store, id: Id)
    requires id in s.index.rows
  {
    id in s.blobs && s.blobs[id].hash == s.index.rows[id].hash && s.blobs[id].size == s.index.rows[id].size
  }

  ghost predicate Committed(s: Store) {
    forall id :: id in s.index.rows ==> Backed(s, id)
  }

  ghost predicate BlobsOk(digest: Digest, blobs: map<Id, Blob>) {
    forall id :: id in blobs ==> blobs[id] == BlobOf(digest, blobs[id].body) && |blobs[id].body| <= BODY_LIMIT
  }

  ghost predicate StoreOk(digest: Digest, s: Store) { IndexOk(s.index) && BlobsOk(digest, s.blobs) }

  ghost predicate Unused(s: Store, id: Id) { id !in s.index.rows && id !in s.blobs }

  /** The upload replaces a blob, its row is refused, the old blob cannot be put back, and the new one differs. */
  predicate Breaks(digest: Digest, s: Store, up: Upload, f: Faults) {
    && up.key in s.index.names && s.index.names[up.key] in s.index.rows
    && var was := s.index.rows[s.index.names[up.key]];
      && !f.find && !f.read && !f.put && f.write && f.rollback
      && |up.body| <= BODY_LIMIT
      && (digest(up.body) != was.hash || |up.body| != was.size)
  }

  lemma CreateStoreOk(digest: Digest, s: Store, up: Upload, id: Id, now: int, f: Faults)
    requires StoreOk(digest, s) && Unused(s, id)
    ensures StoreOk(digest, Create(digest, s, up, id, now, f).0)
  {
    if up.key in s.index.names {
      OverwriteRowFits(digest, s, up, now);
    } else {
      WritesKeepIndex(s.index, RowOf(digest, up, id, now, now), id);
    }
    hide IndexOk, UpdateRow, InsertRow;
  }

  lemma RemoveStoreOk(digest: Digest, s: Store, id: Id, f: Faults)
    requires StoreOk(digest, s)
    ensures StoreOk(digest, Remove(s, id, f).0)
  {
    if id in s.index.rows { WritesKeepIndex(s.index, s.index.rows[id], id); }
    hide IndexOk;
  }

  /** Exactly then is the commit property lost. */
  lemma CreateCommitsIff(digest: Digest, s: Store, up: Upload, id: Id, now: int, f: Faults)
    requires StoreOk(digest, s) && Committed(s) && Unused(s, id)
    ensures var s' := Create(digest, s, up, id, now, f).0;
      StoreOk(digest, s') && (Committed(s') <==> !Breaks(digest, s, up, f))
  {
    if up.key in s.index.names && !f.find {
      OverwriteCommitsIff(digest, s, up, now, f);
    } else if !f.find {
      AddCommits(digest, s, up, id, now, f);
    }
  }

  /** The index never refuses the row of an upload over an existing plugin. */
  lemma OverwriteRowFits(digest: Digest, s: Store, up: Upload, now: int)
    requires IndexOk(s.index) && up.key in s.index.names
    ensures var was := s.index.rows[s.index.names[up.key]];
      && was.id in s.index.rows && was.key == up.key
      && var w := UpdateRow(s.index, RowOf(digest, up, was.id, was.createdAt, now));
        w.Ok? && IndexOk(w.value) && w.value.rows == s.index.rows[was.id := RowOf(digest, up, was.id, was.createdAt, now)]
  {
    var was := s.index.rows[s.index.names[up.key]];
    WritesKeepIndex(s.index, RowOf(digest, up, was.id, was.createdAt, now), was.id);
  }

  lemma OverwriteCommitsIff(digest: Digest, s: Store, up: Upload, now: int, f: Faults)
    requires StoreOk(digest, s) && Committed(s) && up.key in s.index.names && !f.find
    ensures var s' := Overwrite(digest, s, up, now, f).0;
      StoreOk(digest, s') && (Committed(s') <==> !Breaks(digest, s, up, f))
  {
    OverwriteRowFits(digest, s, up, now);
    var id := s.index.rows[s.index.names[up.key]].id;
    var s' := Overwrite(digest, s, up, now, f).0;
    assert Backed(s, id);
    hide IndexOk, UpdateRow;
    if s' != s && f.write && f.rollback {
      assert s'.index == s.index;
      assert Backed(s', id) <==> digest(up.body) == s.index.rows[id].hash && |up.body| == s.index.rows[id].size;
      forall x | x in s.index.rows && x != id ensures Backed(s', x) { assert Backed(s, x); }
    }
  }

  lemma AddCommits(digest: Digest, s: Store, up: Upload, id: Id, now: int, f: Faults)
    requires StoreOk(digest, s) && Committed(s) && Unused(s, id)
    ensures var s' := Add(digest, s, up, id, now, f).0; StoreOk(digest, s') && Committed(s')
  {
    WritesKeepIndex(s.index, RowOf(digest, up, id, now, now), id);
    hide IndexOk;
  }

  lemma RemoveCommits(digest: Digest, s: Store, id: Id, f: Faults)
    requires StoreOk(digest, s) && Committed(s)
    ensures var r := Remove(s, id, f);
      && StoreOk(digest, r.0) && Committed(r.0)
      && (r.1.Ok? <==> id in s.index.rows && !f.find && !f.write)
      && (r.1 == Err(NotFound) <==> id !in s.index.rows && !f.find)
      && (r.1.Ok? ==> r.0.index.rows == s.index.rows - {id} && r.0.blobs == if f.cleanup then s.blobs else s.blobs - {id})
      && (r.1.Err? ==> r.0 == s)
  {
    if id in s.index.rows {
      WritesKeepIndex(s.index, s.index.rows[id], id);
      hide IndexOk;
      forall x | x in s.index.rows && x != id ensures Backed(Remove(s, id, f).0, x) { assert Backed(s, x); }
    }
  }

  predicate RollbackFails(s: Store, up: Upload, f: Faults) {
    up.key in s.index.names && f.write && f.rollback
  }

  /**
   All or nothing. A success stores that row and that blob and nothing else, over the old id and creation time
   when the name was taken; a failure leaves every row and every row's blob as they were.
   */
  lemma CreateIsAtomic(digest: Digest, s: Store, up: Upload, id: Id, now: int, f: Faults)
    requires StoreOk(digest, s) && Unused(s, id)
    ensures var (s', r) := Create(digest, s, up, id, now, f);
      && (r.Ok? ==>
            && r.value == Row(if up.key in s.index.names then s.index.names[up.key] else id, up.key, up.description, digest(up.body), |up.body|,
                              if up.key in s.index.names then s.index.rows[s.index.names[up.key]].createdAt else now, now)
            && s'.index.rows == s.index.rows[r.value.id := r.value]
            && s'.blobs == s.blobs[r.value.id := Blob(up.body, digest(up.body), |up.body|)] && Backed(s', r.value.id))
      && (r.Err? ==> s'.index == s.index)
      && (r.Err? && !RollbackFails(s, up, f) ==> s' == s || s'.blobs == s.blobs[id := BlobOf(digest, up.body)])
  {
    if up.key in s.index.names {
      OverwriteRowFits(digest, s, up, now);
      var was := s.index.names[up.key];
      hide IndexOk, UpdateRow;
      if was in s.blobs { assert s.blobs[was := BlobOf(digest, s.blobs[was].body)] == s.blobs; }
    } else {
      assert s.blobs - {id} == s.blobs;
    }
  }

  /** Exactly when an upload succeeds, and with which error it fails otherwise. */
  lemma CreateAnswers(digest: Digest, s: Store, up: Upload, id: Id, now: int, f: Faults)
    requires StoreOk(digest, s) && Unused(s, id)
    ensures var taken, r := up.key in s.index.names, Create(digest, s, up, id, now, f).1;
      var found := taken ==> !f.read && s.index.names[up.key] in s.blobs;
      && (r.Ok? <==> !f.find && found && !f.put && |up.body| <= 256 * 1024 * 1024 && !f.write)
      && (r == Err(TooLarge) <==> !f.find && found && !f.put && |up.body| > 256 * 1024 * 1024)
      && (r == Err(StorageNotFound) <==> !f.find && taken && !f.read && s.index.names[up.key] !in s.blobs)
      && (r.Err? ==> r.error in {TooLarge, StorageNotFound, Unavailable})
  {
    if up.key in s.index.names { OverwriteRowFits(digest, s, up, now); }
    hide UpdateRow, BlobsOk;
  }

  /** What a row promises is what a download of its blob gives. */
  lemma DownloadMatches(digest: Digest, s: Store, id: Id)
    requires StoreOk(digest, s) && Committed(s) && id in s.index.rows
    ensures id in s.blobs && digest(s.blobs[id].body) == s.index.rows[id].hash && |s.blobs[id].body| == s.index.rows[id].size
  {
    assert Backed(s, id);
  }

  // ----- serial runs -----

  datatype Op = Uploading(up: Upload, id: Id, now: int, f: Faults) | Removing(id: Id, f: Faults)

  function Perform(digest: Digest, s: Store, op: Op): Store
    requires op.Uploading? && op.up.key in s.index.names ==> s.index.names[op.up.key] in s.index.rows
  {
    match op
    case Uploading(up, id, now, f) => Create(digest, s, up, id, now, f).0
    case Removing(id, f) => Remove(s, id, f).0
  }

  /**
   One call after the other, each upload with an id that is not in use. That the index is sound is no restriction:
   RunStoreOk gives it in every state.
   */
  ghost predicate IsRun(digest: Digest, states: seq<Store>, ops: seq<Op>) {
    && |states| == |ops| + 1 && states[0] == NOTHING
    && forall i :: 0 <= i < |ops| ==>
         && IndexOk(states[i].index) && (ops[i].Uploading? ==> Unused(states[i], ops[i].id))
         && states[i + 1] == Perform(digest, states[i], ops[i])
  }

  /** Whatever fails, the index and the blobs stay sound. */
  lemma {:induction false} RunStoreOk(digest: Digest, states: seq<Store>, ops: seq<Op>, n: nat)
    requires IsRun(digest, states, ops) && n <= |ops|
    ensures StoreOk(digest, states[n])
  {
    hide Perform;
    if n > 0 {
      RunStoreOk(digest, states, ops, n - 1);
      PerformStoreOk(digest, states[n - 1], ops[n - 1]);
    }
  }

  lemma PerformStoreOk(digest: Digest, s: Store, op: Op)
    requires StoreOk(digest, s) && (op.Uploading? ==> Unused(s, op.id))
    ensures StoreOk(digest, Perform(digest, s, op))
  {
    hide Create, Remove, Unused, StoreOk;
    match op
    case Uploading(up, id, now, f) => CreateStoreOk(digest, s, up, id, now, f);
    case Removing(id, f) => RemoveStoreOk(digest, s, id, f);
  }

  predicate OpBreaks(digest: Digest, s: Store, op: Op) {
    op.Uploading? && Breaks(digest, s, op.up, op.f)
  }

  lemma OpCommitsIff(digest: Digest, s: Store, op: Op)
    requires StoreOk(digest, s) && Committed(s) && (op.Uploading? ==> Unused(s, op.id))
    ensures var s' := Perform(digest, s, op);
      StoreOk(digest, s') && (Committed(s') <==> !OpBreaks(digest, s, op))
  {
    hide Breaks, Create, Remove, Unused, StoreOk, Committed;
    match op
    case Uploading(up, id, now, f) => CreateCommitsIff(digest, s, up, id, now, f);
    case Removing(id, f) => RemoveCommits(digest, s, id, f);
  }

  lemma {:induction false} RunCommits(digest: Digest, states: seq<Store>, ops: seq<Op>, n: nat)
    requires IsRun(digest, states, ops) && n <= |ops|
    requires forall i :: 0 <= i < n ==> !OpBreaks(digest, states[i], ops[i])
    ensures StoreOk(digest, states[n]) && Committed(states[n])
  {
    hide OpBreaks, Perform;
    if n > 0 {
      RunCommits(digest, states, ops, n - 1);
      OpCommitsIff(digest, states[n - 1], ops[n - 1]);
    }
  }

  lemma {:induction false} CommittedMeansUnbroken(digest: Digest, states: seq<Store>, ops: seq<Op>, n: nat)
    requires IsRun(digest, states, ops) && n <= |ops|
    requires forall i :: 0 <= i <= n ==> Committed(states[i])
    ensures forall i :: 0 <= i < n ==> !OpBreaks(digest, states[i], ops[i])
  {
    hide OpBreaks, Perform, Committed, StoreOk;
    if n > 0 {
      CommittedMeansUnbroken(digest, states, ops, n - 1);
      RunCommits(digest, states, ops, n - 1);
      OpCommitsIff(digest, states[n - 1], ops[n - 1]);
      assert Committed(states[n]) && states[n] == Perform(digest, states[n - 1], ops[n - 1]);
    }
  }

  /** Over any serial run every row is backed by its blob at every point, if and only if no upload met the one bad case. */
  lemma RunCommitsIff(digest: Digest, states: seq<Store>, ops: seq<Op>)
    requires IsRun(digest, states, ops)
    ensures (forall n :: 0 <= n <= |ops| ==> Committed(states[n])) <==> (forall i :: 0 <= i < |ops| ==> !OpBreaks(digest, states[i], ops[i]))
  {
    hide OpBreaks, Perform, Committed, StoreOk;
    if forall n :: 0 <= n <= |ops| ==> Committed(states[n]) {
      CommittedMeansUnbroken(digest, states, ops, |ops|);
    }
    if forall i :: 0 <= i < |ops| ==> !OpBreaks(digest, states[i], ops[i]) {
      forall n | 0 <= n <= |ops| ensures Committed(states[n]) { RunCommits(digest, states, ops, n); }
    }
  }

  const FINE := Faults(false, false, false, false, false, false)
  const REFUSED := FINE.(write := true, rollback := true)
  const NAME := NameKey("default", "tool")

  /** The bad case exists: two uploads under one name, the second refused and not rolled back. */
  lemma RollbackFailureBreaks(digest: Digest)
    ensures var first := Create(digest, NOTHING, Upload(NAME, "", [1]), "p", 0, FINE).0;
      var second := Create(digest, first, Upload(NAME, "", [1, 2]), "q", 1, REFUSED).0;
      Committed(first) && Breaks(digest, first, Upload(NAME, "", [1, 2]), REFUSED) && !Committed(second)
  {
    CreateCommitsIff(digest, NOTHING, Upload(NAME, "", [1]), "p", 0, FINE);
    var first := Create(digest, NOTHING, Upload(NAME, "", [1]), "p", 0, FINE).0;
    CreateIsAtomic(digest, NOTHING, Upload(NAME, "", [1]), "p", 0, FINE);
    CreateCommitsIff(digest, first, Upload(NAME, "", [1, 2]), "q", 1, REFUSED);
  }

  // ----- the classes -----

  class PluginRepository {
    var rows: map<Id, Row>
    var names: map<NameKey, Id>
    var closed: bool

    ghost function View(): Index
      reads this
    {
      Index(rows, names)
    }

    constructor ()
      ensures View() == NOTHING.index && !closed
    {
      rows, names, closed := map[], map[], false;
    }

    method Insert(row: Row) returns (r: Result<(), Error>)
      modifies this
      ensures closed == old(closed)
      ensures var w := if closed then Err(Unavailable) else InsertRow(old(View()), row);
        if w.Ok? then r == Ok(()) && View() == w.value else r == Err(w.error) && View() == old(View())
      ensures r == Err(IdAndNameConflict) <==> !closed && row.id in old(rows) && old(rows)[row.id].key == row.key
      ensures r == Err(IdConflict) <==> !closed && row.id in old(rows) && old(rows)[row.id].key != row.key
      ensures r == Err(NameConflict) <==> !closed && row.id !in old(rows) && row.key in old(names)
      ensures r.Ok? <==> !closed && row.id !in old(rows) && row.key !in old(names)
      ensures r.Ok? ==> rows == old(rows)[row.id := row] && names == old(names)[row.key := row.id]
    {
      if closed { return Err(Unavailable); }
      if row.id in rows { return Err(if rows[row.id].key == row.key then IdAndNameConflict else IdConflict); }
      if row.key in names { return Err(NameConflict); }
      rows := rows[row.id := row];
      names := names[row.key := row.id];
      r := Ok(());
    }

    method Update(row: Row) returns (r: Result<(), Error>)
      modifies this
      ensures closed == old(closed)
      ensures var w := if closed then Err(Unavailable) else UpdateRow(old(View()), row);
        if w.Ok? then r == Ok(()) && View() == w.value else r == Err(w.error) && View() == old(View())
      ensures r == Err(NotFound) <==> !closed && row.id !in old(rows)
      ensures r == Err(NameConflict) <==> !closed && row.id in old(rows) && row.key in old(names) && old(names)[row.key] != row.id
      ensures r.Ok? <==> !closed && row.id in old(rows) && (row.key in old(names) ==> old(names)[row.key] == row.id)
      ensures r.Ok? ==> rows == old(rows)[row.id := row.(createdAt := old(rows)[row.id].createdAt)]
      ensures r.Ok? ==> names == (old(names) - {old(rows)[row.id].key})[row.key := row.id]
    {
      if closed { return Err(Unavailable); }
      if row.id !in rows { return Err(NotFound); }
      var existing := rows[row.id];
      if row.key in names && names[row.key] != row.id { return Err(NameConflict); }
      names := names - {existing.key};
      rows := rows[row.id := row.(createdAt := existing.createdAt)];
      names := names[row.key := row.id];
      r := Ok(());
    }

    method Get(id: Id) returns (r: Result<Row, Error>)
      ensures r == if closed then Err(Unavailable) else if id !in rows then Err(NotFound) else Ok(rows[id])
    {
      if closed { return Err(Unavailable); }
      if id !in rows { return Err(NotFound); }
      r := Ok(rows[id]);
    }

    method GetByName(key: NameKey) returns (r: Result<Row, Error>)
      requires IndexOk(View())
      ensures r == if closed then Err(Unavailable) else if key !in names then Err(NotFound) else Ok(rows[names[key]])
      ensures r.Ok? ==> r.value.key == key
    {
      if closed { return Err(Unavailable); }
      if key !in names { return Err(NotFound); }
      r := Ok(rows[names[key]]);
    }

    method Delete(id: Id) returns (r: Result<(), Error>)
      modifies this
      ensures closed == old(closed)
      ensures var w := if closed then Err(Unavailable) else DeleteRow(old(View()), id);
        if w.Ok? then r == Ok(()) && View() == w.value else r == Err(w.error) && View() == old(View())
      ensures r == if closed then Err(Unavailable) else if id in old(rows) then Ok(()) else Err(NotFound)
      ensures r.Ok? ==> rows == old(rows) - {id} && names == old(names) - {old(rows)[id].key}
    {
      if closed { return Err(Unavailable); }
      if id !in rows { return Err(NotFound); }
      var row := rows[id];
      rows := rows - {id};
      names := names - {row.key};
      r := Ok(());
    }
  }

  class PluginStorage {
    const digest: Digest
    var blobs: map<Id, Blob>
    var closed: bool

    constructor (digest: Digest)
      ensures this.digest == digest && blobs == map[] && !closed
    {
      this.digest := digest;
      blobs, closed := map[], false;
    }

    method Put(id: Id, body: Text) returns (r: Result<Blob, Error>)
      modifies this
      ensures closed == old(closed)
      ensures r == if closed then Err(Unavailable) else if |body| > 256 * 1024 * 1024 then Err(TooLarge) else Ok(Blob(body, digest(body), |body|))
      ensures blobs == if r.Ok? then old(blobs)[id := r.value] else old(blobs)
    {
      if closed { return Err(Unavailable); }
      if |body| > BODY_LIMIT { return Err(TooLarge); }
      var blob := Blob(body, digest(body), |body|);
      blobs := blobs[id := blob];
      r := Ok(blob);
    }

    method Get(id: Id) returns (r: Result<Blob, Error>)
      ensures r == if closed then Err(Unavailable) else if id !in blobs then Err(StorageNotFound) else Ok(blobs[id])
    {
      if closed { return Err(Unavailable); }
      if id !in blobs { return Err(StorageNotFound); }
      r := Ok(blobs[id]);
    }

    method Delete(id: Id) returns (r: Result<(), Error>)
      modifies this
      ensures closed == old(closed)
      ensures r == if closed then Err(Unavailable) else Ok(())
      ensures blobs == if closed then old(blobs) else old(blobs) - {id}
    {
      if closed { return Err(Unavailable); }
      blobs := blobs - {id};
      r := Ok(());
    }
  }

  /** The manager's two plugin calls over a repository and a storage that may refuse any call. */
  class Facade {
    const repo: PluginRepository
    const storage: PluginStorage

    ghost function View(): Store
      reads repo, storage
    {
      Store(repo.View(), storage.blobs)
    }

    ghost predicate Valid()
      reads repo, storage
    {
      StoreOk(storage.digest, View())
    }

    /** A closed repository or storage refuses every call. */
    function Effective(f: Faults): Faults
      reads repo, storage
    {
      Faults(f.find || repo.closed, f.read || storage.closed, f.put || storage.closed, f.write || repo.closed,
        f.rollback || storage.closed, f.cleanup || storage.closed)
    }

    constructor (repo: PluginRepository, storage: PluginStorage)
      ensures this.repo == repo && this.storage == storage
    {
      this.repo, this.storage := repo, storage;
    }

    method CreatePlugin(up: Upload, unused: Id, now: int, f: Faults) returns (r: Result<Row, Error>)
      requires Valid() && Unused(View(), unused)
      modifies repo, storage
      ensures Valid() && (View(), r) == Create(storage.digest, old(View()), up, unused, now, old(Effective(f)))
    {
      CreateStoreOk(storage.digest, View(), up, unused, now, Effective(f));
      if f.find { return Err(Unavailable); }
      var found := repo.GetByName(up.key);
      if found.Err? && found.error != NotFound { return Err(found.error); }
      if found.Ok? {
        r := ReplacePlugin(up, found.value, now, f);
      } else {
        r := AddPlugin(up, unused, now, f);
      }
    }

    method ReplacePlugin(up: Upload, existing: Row, now: int, f: Faults) returns (r: Result<Row, Error>)
      requires Valid() && up.key in repo.names && repo.rows[repo.names[up.key]] == existing && !repo.closed
      modifies repo, storage
      ensures (View(), r) == Overwrite(storage.digest, old(View()), up, now, old(Effective(f)))
    {
      OverwriteRowFits(storage.digest, View(), up, now);
      ghost var before := View();
      var id := existing.id;
      if f.read { return Err(Unavailable); }
      var was := storage.Get(id);
      if was.Err? { return Err(was.error); }
      if f.put { return Err(Unavailable); }
      var stored := storage.Put(id, up.body);
      if stored.Err? { return Err(stored.error); }
      var row := Row(id, up.key, up.description, stored.value.hash, stored.value.size, existing.createdAt, now);
      var written: Result<(), Error> := Err(Unavailable);
      if !f.write { written := repo.Update(row); }
      if written.Ok? { return Ok(row); }
      if !f.rollback {
        var restored := storage.Put(id, was.value.body);
        assert storage.blobs == before.blobs[id := BlobOf(storage.digest, was.value.body)];
      }
      r := Err(written.error);
    }

    method AddPlugin(up: Upload, id: Id, now: int, f: Faults) returns (r: Result<Row, Error>)
      requires Valid() && Unused(View(), id) && !repo.closed
      modifies repo, storage
      ensures (View(), r) == Add(storage.digest, old(View()), up, id, now, old(Effective(f)))
    {
      ghost var before := View();
      if f.put { return Err(Unavailable); }
      var stored := storage.Put(id, up.body);
      if stored.Err? { return Err(stored.error); }
      var row := Row(id, up.key, up.description, stored.value.hash, stored.value.size, now, now);
      var written: Result<(), Error> := Err(Unavailable);
      if !f.write { written := repo.Insert(row); }
      if written.Ok? { return Ok(row); }
      if !f.cleanup {
        var cleaned := storage.Delete(id);
        assert storage.blobs == before.blobs - {id};
      }
      r := Err(written.error);
    }

    method DeletePlugin(id: Id, f: Faults) returns (r: Result<(), Error>)
      requires Valid()
      modifies repo, storage
      ensures Valid() && (View(), r) == Remove(old(View()), id, old(Effective(f)))
    {
      RemoveStoreOk(storage.digest, View(), id, Effective(f));
      if f.find { return Err(Unavailable); }
      var row := repo.Get(id);
      if row.Err? { return Err(row.error); }
      if f.write { return Err(Unavailable); }
      r := repo.Delete(row.value.id);
      if r.Err? { return; }
      if !f.cleanup { var _ := storage.Delete(row.value.id); }
    }
  }
}
