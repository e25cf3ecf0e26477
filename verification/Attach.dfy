/**
 Attaching plugins to a workspace: fetch and check all, compare their directories, and only then place them.
 The storage, the archives and the layout are nondeterministic outcomes; the log records what was opened,
 closed and placed.
 */
module Attach {
  import opened Common
  import opened Traces
  import Layout
  import Paths

  datatype Ref = Ref(pluginId: string, hash: string)

  datatype Attached = Attached(ref: Ref, placed: seq<string>)

  datatype Fetched = Missing | Refused | Found(hash: string)

  /** What happens to one plugin on the way; dir is its directory key, empty when it has none. */
  datatype Outcome = Outcome(
    fetched: Fetched,
    opens: bool,
    bodyCloses: bool,
    dir: Option<string>,
    placed: Option<seq<string>>,
    readerCloses: bool)

  datatype Error =
    | PluginNotFound
    | StorageError
    | HashMismatch
    | OpenError
    | CloseError
    | NoKey
    | DuplicateDirectory
    | ApplyError

  datatype Kind = OpenBody | CloseBody | OpenReader | CloseReader | Place

  const UNTOUCHED: seq<Kind> := []
  const REJECTED := [OpenBody, CloseBody]
  const OPENED := [OpenBody, OpenReader, CloseBody]
  const DROPPED := [OpenBody, OpenReader, CloseBody, CloseReader]
  const PLACED := [OpenBody, OpenReader, CloseBody, Place, CloseReader]

  /** Every body and reader that was opened is closed exactly once, after it was opened, and placing comes in between. */
  predicate Tidy(trace: seq<Kind>) {
    trace == UNTOUCHED || trace == REJECTED || trace == DROPPED || trace == PLACED
  }

  /** The whole histories, and how they come about. */
  lemma Histories()
    ensures Tidy(UNTOUCHED) && Tidy(REJECTED) && Tidy(DROPPED) && Tidy(PLACED)
    ensures UNTOUCHED + UNTOUCHED == UNTOUCHED && UNTOUCHED + [OpenBody] + [CloseBody] == REJECTED
    ensures UNTOUCHED + [OpenBody] + [OpenReader] + [CloseBody] == OPENED
    ensures OPENED + [CloseReader] == DROPPED && OPENED + [Place] + [CloseReader] == PLACED
    ensures forall t: seq<Kind> :: t + [] == t && [] + t == t
    ensures forall i: nat :: Trace<Kind>([], i) == UNTOUCHED
  {}

  predicate Checked(ref: Ref, o: Outcome) {
    o.fetched == Found(ref.hash) && o.opens && o.bodyCloses
  }

  /** What checking one plugin comes to. */
  function Verdict(ref: Ref, o: Outcome): (e: Option<Error>)
    ensures e.None? <==> Checked(ref, o)
  {
    match o.fetched
    case Missing => Some(PluginNotFound)
    case Refused => Some(StorageError)
    case Found(hash) =>
      if hash != ref.hash then Some(HashMismatch)
      else if !o.opens then Some(OpenError)
      else if !o.bodyCloses then Some(CloseError)
      else None
  }

  predicate SameDirectory(a: Outcome, b: Outcome) {
    a.dir.Some? && a.dir.value != "" && a.dir == b.dir
  }

  /** A plugin's key does not fit when it has none, or an earlier one has the same. */
  predicate KeyFits(outcomes: seq<Outcome>, i: nat)
    requires i < |outcomes|
  {
    outcomes[i].dir.Some? && forall k :: 0 <= k < i ==> !SameDirectory(outcomes[k], outcomes[i])
  }

  predicate KeysFit(outcomes: seq<Outcome>) {
    forall i :: 0 <= i < |outcomes| ==> KeyFits(outcomes, i)
  }

  /** Every plugin has a key, and two share one only when it is empty. */
  lemma KeysFitIff(outcomes: seq<Outcome>)
    ensures KeysFit(outcomes) <==>
      && (forall i :: 0 <= i < |outcomes| ==> outcomes[i].dir.Some?)
      && forall i, k :: 0 <= k < i < |outcomes| && outcomes[k].dir == outcomes[i].dir ==> outcomes[i].dir == Some("")
  {
    if KeysFit(outcomes) {
      forall i | 0 <= i < |outcomes| ensures outcomes[i].dir.Some? { assert KeyFits(outcomes, i); }
      forall i, k | 0 <= k < i < |outcomes| && outcomes[k].dir == outcomes[i].dir ensures outcomes[i].dir == Some("") {
        assert KeyFits(outcomes, i) && !SameDirectory(outcomes[k], outcomes[i]);
      }
    }
  }

  /** The first key that does not fit decides. */
  predicate KeyError(outcomes: seq<Outcome>, e: Error) {
    exists i :: 0 <= i < |outcomes| && !KeyFits(outcomes, i) && (forall k :: 0 <= k < i ==> KeyFits(outcomes, k))
      && e == if outcomes[i].dir.None? then NoKey else DuplicateDirectory
  }

  /** Everything that is checked before the first write. */
  predicate Preflight(refs: seq<Ref>, outcomes: seq<Outcome>, keyed: bool)
    requires |refs| == |outcomes|
  {
    (forall i :: 0 <= i < |refs| ==> Checked(refs[i], outcomes[i])) && (keyed ==> KeysFit(outcomes))
  }

  ghost predicate NothingPlaced(log: seq<Event<Kind>>) {
    forall k :: 0 <= k < |log| ==> log[k].kind != Place
  }

  /** closeReaders: the readers that are still open. */
  method CloseReaders(open: seq<bool>, before: seq<Event<Kind>>) returns (log: seq<Event<Kind>>)
    ensures forall i: nat :: Trace(log, i) == Trace(before, i) + (if i < |open| && open[i] then [CloseReader] else [])
    ensures NothingPlaced(before) ==> NothingPlaced(log)
  {
    log := before;
    for k := 0 to |open|
      invariant forall i: nat :: Trace(log, i) == Trace(before, i) + (if i < k && open[i] then [CloseReader] else [])
      invariant NothingPlaced(before) ==> NothingPlaced(log)
    {
      if open[k] { log := Log(log, k, CloseReader); }
    }
  }

  /** One plugin: its blob is fetched, compared and opened as an archive. */
  method OpenPlugin(i: nat, ref: Ref, o: Outcome, before: seq<Event<Kind>>) returns (e: Option<Error>, log: seq<Event<Kind>>)
    requires Trace(before, i) == UNTOUCHED
    ensures e == Verdict(ref, o)
    ensures e == Some(PluginNotFound) <==> o.fetched.Missing?
    ensures e == Some(StorageError) <==> o.fetched.Refused?
    ensures e == Some(HashMismatch) <==> o.fetched.Found? && o.fetched.hash != ref.hash
    ensures e == Some(OpenError) <==> o.fetched == Found(ref.hash) && !o.opens
    ensures e == Some(CloseError) <==> o.fetched == Found(ref.hash) && o.opens && !o.bodyCloses
    ensures e == None <==> o.fetched == Found(ref.hash) && o.opens && o.bodyCloses
    ensures forall j: nat :: j != i ==> Trace(log, j) == Trace(before, j)
    ensures e.None? ==> Trace(log, i) == OPENED
    ensures e.Some? ==> Tidy(Trace(log, i))
    ensures NothingPlaced(before) ==> NothingPlaced(log)
  {
    hide Trace, Tidy;
    Histories();
    log := before;
    if !o.fetched.Found? {
      return Some(if o.fetched.Missing? then PluginNotFound else StorageError), log;
    }
    log := Log(log, i, OpenBody);
    if o.fetched.hash != ref.hash || !o.opens {
      log := Log(log, i, CloseBody);
      return Some(if o.fetched.hash != ref.hash then HashMismatch else OpenError), log;
    }
    log := Log(log, i, OpenReader);
    log := Log(log, i, CloseBody);
    if !o.bodyCloses {
      log := Log(log, i, CloseReader);
      return Some(CloseError), log;
    }
    e := None;
  }

  /** The directory keys, compared before anything is written. */
  method CompareKeys(outcomes: seq<Outcome>) returns (e: Option<Error>)
    ensures e.None? <==> KeysFit(outcomes)
    ensures e.Some? ==> KeyError(outcomes, e.value)
  {
    var seen: set<string> := {};
    for i := 0 to |outcomes|
      invariant forall k :: 0 <= k < i ==> KeyFits(outcomes, k)
      invariant forall d :: d in seen <==> d != "" && exists k :: 0 <= k < i && outcomes[k].dir == Some(d)
    {
      if outcomes[i].dir.None? {
        assert !KeyFits(outcomes, i);
        return Some(NoKey);
      }
      var dir := outcomes[i].dir.value;
      if dir in seen {
        var k :| 0 <= k < i && outcomes[k].dir == Some(dir);
        assert SameDirectory(outcomes[k], outcomes[i]);
        assert !KeyFits(outcomes, i);
        return Some(DuplicateDirectory);
      }
      if dir != "" { seen := seen + {dir}; }
    }
    e := None;
  }

  predicate PlacedWell(o: Outcome) { o.placed.Some? && o.readerCloses }

  /** The first placement that does not go well decides. */
  predicate PlaceError(outcomes: seq<Outcome>, e: Error) {
    exists i :: 0 <= i < |outcomes| && !PlacedWell(outcomes[i]) && (forall k :: 0 <= k < i ==> PlacedWell(outcomes[k]))
      && e == if outcomes[i].placed.None? then ApplyError else CloseError
  }

  /** attachPlugins. */
  method AttachPlugins(refs: seq<Ref>, outcomes: seq<Outcome>, keyed: bool) returns (r: Result<seq<Attached>, Error>, log: seq<Event<Kind>>)
    requires |refs| == |outcomes|
    ensures r.Ok? <==> Preflight(refs, outcomes, keyed) && forall i :: 0 <= i < |refs| ==> outcomes[i].placed.Some? && outcomes[i].readerCloses
    ensures r.Ok? ==> |r.value| == |refs| && forall i :: 0 <= i < |refs| ==> r.value[i] == Attached(refs[i], outcomes[i].placed.value)
    ensures forall i :: 0 <= i < |refs| && !Checked(refs[i], outcomes[i]) && (forall k :: 0 <= k < i ==> Checked(refs[k], outcomes[k])) ==>
      r == Err(Verdict(refs[i], outcomes[i]).value)
    ensures (forall i :: 0 <= i < |refs| ==> Checked(refs[i], outcomes[i])) && keyed && !KeysFit(outcomes) ==>
      r.Err? && KeyError(outcomes, r.error)
    ensures Preflight(refs, outcomes, keyed) && r.Err? ==> PlaceError(outcomes, r.error)
    ensures !Preflight(refs, outcomes, keyed) ==> NothingPlaced(log)
    ensures forall i: nat :: Tidy(Trace(log, i))
    ensures r.Ok? ==> forall i: nat :: Trace(log, i) == if i < |refs| then [OpenBody, OpenReader, CloseBody, Place, CloseReader] else []
  {
    hide KeysFit, Checked, PlacedWell, Trace, Tidy, Verdict, KeyError, PlaceError;
    Histories();
    log := [];
    r := Err(StorageError);
    var open: seq<bool> := [];
    for i := 0 to |refs|
      invariant |open| == i && (forall k :: 0 <= k < i ==> open[k] && Checked(refs[k], outcomes[k]))
      invariant forall k: nat :: Trace(log, k) == if k < i then OPENED else []
      invariant NothingPlaced(log)
    {
      var e;
      e, log := OpenPlugin(i, refs[i], outcomes[i], log);
      if e.Some? {
        log := CloseReaders(open, log);
        return Err(e.value), log;
      }
      open := open + [true];
    }
    if keyed {
      var e := CompareKeys(outcomes);
      if e.Some? {
        log := CloseReaders(open, log);
        return Err(e.value), log;
      }
    }
    r, log := PlacePlugins(refs, outcomes, open, log);
  }

  /** The second half: each plugin is placed and its reader closed; a failure closes the rest. */
  method PlacePlugins(refs: seq<Ref>, outcomes: seq<Outcome>, readers: seq<bool>, before: seq<Event<Kind>>)
    returns (r: Result<seq<Attached>, Error>, log: seq<Event<Kind>>)
    requires |refs| == |outcomes| == |readers| && forall k :: 0 <= k < |readers| ==> readers[k]
    requires forall k: nat :: Trace(before, k) == if k < |refs| then OPENED else []
    ensures r.Ok? <==> forall i :: 0 <= i < |refs| ==> outcomes[i].placed.Some? && outcomes[i].readerCloses
    ensures r.Ok? ==> |r.value| == |refs| && forall i :: 0 <= i < |refs| ==> r.value[i] == Attached(refs[i], outcomes[i].placed.value)
    ensures r.Err? ==> PlaceError(outcomes, r.error)
    ensures forall i: nat :: Tidy(Trace(log, i))
    ensures r.Ok? ==> forall i: nat :: Trace(log, i) == if i < |refs| then PLACED else []
  {
    hide Trace, Tidy;
    Histories();
    log := before;
    var open := readers;
    var attached: seq<Attached> := [];
    for i := 0 to |refs|
      invariant |open| == |refs| && (forall k :: 0 <= k < |refs| ==> open[k] == (i <= k))
      invariant |attached| == i && forall k :: 0 <= k < i ==> PlacedWell(outcomes[k]) && attached[k] == Attached(refs[k], outcomes[k].placed.value)
      invariant forall k: nat :: Trace(log, k) == if k < i then PLACED else if k < |refs| then OPENED else []
    {
      log := Log(log, i, Place);
      log := Log(log, i, CloseReader);
      open := open[i := false];
      if !PlacedWell(outcomes[i]) {
        log := CloseReaders(open, log);
        return Err(if outcomes[i].placed.None? then ApplyError else CloseError), log;
      }
      attached := attached + [Attached(refs[i], outcomes[i].placed.value)];
    }
    r := Ok(attached);
  }

  /** The directory the layout gives a plugin of that name, if any. */
  function KeyOf(suffix: Layout.Suffix, name: string): Option<string> {
    match Layout.DirectoryKey(suffix, name)
    case Ok(dir) => Some(dir)
    case Err(_) => None
  }

  lemma KeyIsBase(suffix: Layout.Suffix, name: string, dir: string)
    requires Layout.HexSuffix(suffix) && KeyOf(suffix, name) == Some(dir)
    ensures var clean := Layout.Sanitized(suffix, name); Layout.IsName(clean) && dir == Layout.BaseOf(clean) && dir != ""
  {
    Layout.SanitizedIsName(suffix, name);
    hide Layout.Sanitized, Layout.IsName, Layout.BaseOf, Layout.Words;
    Layout.BaseSegments(Layout.Sanitized(suffix, name));
  }

  /** Once the keys are compared, no file of one plugin is written over, or below, a file of another. */
  lemma PlacedApart(suffix: Layout.Suffix, outcomes: seq<Outcome>, i: nat, j: nat, name: string, another: string, dir: string, other: string, src: string, file: string)
    requires Layout.HexSuffix(suffix) && KeysFit(outcomes) && i < j < |outcomes|
    requires outcomes[i].dir == KeyOf(suffix, name) == Some(dir) && outcomes[j].dir == KeyOf(suffix, another) == Some(other)
    requires Layout.MapPath(dir, src).Ok? && Layout.MapPath(other, file).Ok?
    ensures var t, u := Layout.MapPath(dir, src).value, Layout.MapPath(other, file).value;
      t != u && !(Paths.Kept(t) <= Paths.Kept(u)) && !(Paths.Kept(u) <= Paths.Kept(t))
  {
    assert KeyFits(outcomes, j);
    assert !SameDirectory(outcomes[i], outcomes[j]);
    hide KeyOf, KeyFits, KeysFit, Layout.Sanitized, Layout.MapPath, Layout.IsName, Paths.Kept, Layout.BaseOf, Layout.Words;
    KeyIsBase(suffix, name, dir);
    KeyIsBase(suffix, another, other);
    Layout.TargetsAreDisjoint(Layout.Sanitized(suffix, name), Layout.Sanitized(suffix, another), src, file);
  }
}
