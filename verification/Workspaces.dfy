/** Workspace rows, their status machine, and one page of the table. */
module Workspaces {
  import opened Common
  import opened Keys
  import Paths

  type Id = string

  /** Other stands for a status string outside the three known ones. */
  datatype Status = Init | Healthy | Failed | Other(name: string)

  datatype Writer = ByController | ByScheduler | ByOther

  datatype Failure = Failure(code: string, phase: string)

  datatype Attached = Attached(pluginId: string, hash: string, placed: seq<string>)

  datatype Row = Row(
    id: Id,
    key: Key,
    agentType: string,
    infraType: string,
    rawDir: Option<string>,
    plugins: seq<Attached>,
    status: Status,
    error: Option<Failure>,
    labels: map<string, string>,
    createdAt: int,
    lastProbeAt: int)

  const LOCALDIR := "localdir"
  const INSTALL_TIMEOUT_CODE := "install.timeout"

  /** localdirDirOption on a localdir row: the cleaned directory, when one is given. */
  function DirOption(infraType: string, rawDir: Option<string>): Option<string> {
    if infraType != LOCALDIR || rawDir.None? || rawDir.value == "" then None
    else Some(Paths.Clean(rawDir.value))
  }

  function DirOf(r: Row): Option<string> { DirOption(r.infraType, r.rawDir) }

  // ----- the table -----

  type Table = map<Id, Row>

  ghost predicate KeysDistinct(t: Table) {
    forall a, b :: a in t && b in t && t[a].key == t[b].key ==> a == b
  }

  ghost predicate IdsMatch(t: Table) {
    forall a :: a in t ==> t[a].id == a
  }

  /** What the repository keeps: ids and keys identify rows. */
  ghost predicate Coherent(t: Table) { IdsMatch(t) && KeysDistinct(t) }

  lemma StoredId(t: Table, id: Id)
    requires Coherent(t) && id in t
    ensures t[id].id == id
  {}

  /** What the manager's namespace check adds: a cursor over any row can be read back. */
  ghost predicate NulFree(t: Table) {
    forall a :: a in t ==> NUL !in t[a].key.ns
  }

  ghost predicate WellFormed(t: Table) { Coherent(t) && NulFree(t) }

  // ----- transitions -----

  predicate Known(s: Status) { !s.Other? }

  /** validateTransitionByWriter. */
  predicate TransitionAllowed(w: Writer, from: Status, to: Status) {
    match w
    case ByController => from == Init && (to == Healthy || to == Failed)
    case ByScheduler =>
      || (from == Init && to == Failed)
      || (from == Healthy && to == Failed)
      || (from == Failed && to == Healthy)
    case ByOther => false
  }

  function WithStatus(r: Row, next: Status, error: Option<Failure>, probedAt: int): Row {
    r.(status := next, lastProbeAt := probedAt, error := if next == Healthy then None else error)
  }

  predicate SameImmutable(a: Row, b: Row) {
    a.key == b.key && a.agentType == b.agentType && a.infraType == b.infraType
  }

  datatype RepoError =
    | Closed
    | NotFound
    | DuplicateId
    | AliasConflict
    | InvalidTransition
    | PreconditionFailed
    | Immutable
    | InvalidCursor

  /** The outcome of a write: the new table, or the error that left the table as it was. */
  type Written = Result<Table, RepoError>

  ghost predicate AliasTaken(t: Table, k: Key) {
    exists a :: a in t && t[a].key == k
  }

  ghost function InsertRow(t: Table, w: Row): Written {
    if w.id in t then Err(DuplicateId)
    else if !Known(w.status) then Err(InvalidTransition)
    else if AliasTaken(t, w.key) then Err(AliasConflict)
    else Ok(t[w.id := w])
  }

  function UpdateRow(t: Table, w: Row): Written {
    if w.id !in t then Err(NotFound)
    else if w.status != t[w.id].status then Err(InvalidTransition)
    else if !Known(w.status) then Err(InvalidTransition)
    else if !SameImmutable(t[w.id], w) then Err(Immutable)
    else Ok(t[w.id := w.(createdAt := t[w.id].createdAt)])
  }

  function CompareAndSet(t: Table, id: Id, w: Writer, expected: Status, next: Status, error: Option<Failure>, probedAt: int): Written {
    if id !in t then Err(NotFound)
    else if t[id].status != expected then Err(PreconditionFailed)
    else if !Known(next) then Err(InvalidTransition)
    else if !TransitionAllowed(w, expected, next) then Err(InvalidTransition)
    else Ok(t[id := WithStatus(t[id], next, error, probedAt)])
  }

  function DeleteRow(t: Table, id: Id): Written {
    if id !in t then Err(NotFound) else Ok(t - {id})
  }

  // ----- listing -----

  datatype Filter = Filter(ns: Text, agentType: string, infraType: string, status: Option<Status>, labels: map<string, string>)

  const EVERYTHING := Filter([], "", "", None, map[])

  predicate LabelsMatch(have: map<string, string>, want: map<string, string>) {
    forall k :: k in want ==> (if k in have then have[k] else "") == want[k]
  }

  predicate Matches(r: Row, f: Filter) {
    && (f.ns == [] || r.key.ns == f.ns)
    && (f.agentType == "" || r.agentType == f.agentType)
    && (f.infraType == "" || r.infraType == f.infraType)
    && (f.status.None? || r.status == f.status.value)
    && LabelsMatch(r.labels, f.labels)
  }

  predicate Sorted(s: seq<Row>) {
    forall i, j :: 0 <= i < j < |s| ==> Less(s[i].key, s[j].key)
  }

  /** s lists, in key order, exactly the matching rows of t; with a cursor, only those past it. */
  ghost predicate Lists(t: Table, f: Filter, after: Option<Key>, s: seq<Row>) {
    && Sorted(s)
    && (forall i :: 0 <= i < |s| ==> Selected(t, f, after, s[i]))
    && (forall r :: Selected(t, f, after, r) ==> r in s)
  }

  ghost predicate Selected(t: Table, f: Filter, after: Option<Key>, r: Row) {
    && r.id in t && t[r.id] == r
    && Matches(r, f)
    && (after.Some? ==> Less(after.value, r.key))
  }
}
