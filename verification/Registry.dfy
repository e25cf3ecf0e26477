/** The in-memory catalog of routable workspaces, and the round trip from printed alias to entry. */
module Registry {
  import opened Common
  import opened Strings
  import Protocol
  import RuntimeConfig

  datatype Kind = ChatApi | ResumableCli | SocketSession | OtherKind(name: string)

  datatype Workspace = Workspace(
    id: string,
    alias: string,
    runtimeType: string,
    kind: Kind,
    description: string,
    enabled: bool,
    isDefault: bool,
    config: RuntimeConfig.Value)

  type Factory = nat

  datatype Error = AliasNotFound | WorkspaceNotFound | WorkspaceDisabled | AliasConflict | InvalidWorkspace | NoDefaultWorkspace

  const DESCRIPTION_LIMIT := 256

  /** A workspace as the catalog stores it. */
  predicate Normal(ws: Workspace) {
    && Trim(ws.id) == ws.id && ws.id != ""
    && Protocol.ValidAlias(ws.alias)
    && Trim(ws.runtimeType) == ws.runtimeType && ws.runtimeType != ""
    && !ws.kind.OtherKind?
    && |ws.description| <= DESCRIPTION_LIMIT
  }

  predicate AliasPattern(a: string) { a != "" && forall i :: 0 <= i < |a| ==> Protocol.AliasChar(a[i]) }

  function Trimmed(ws: Workspace): Workspace {
    ws.(id := Trim(ws.id), alias := Trim(ws.alias), runtimeType := Trim(ws.runtimeType))
  }

  ghost predicate Acceptable(heap: RuntimeConfig.Heap, ws: Workspace) {
    Normal(Trimmed(ws)) && !RuntimeConfig.Cyclic(heap, ws.config)
  }

  lemma AcceptedFacts(heap: RuntimeConfig.Heap, ws: Workspace)
    requires Acceptable(heap, ws)
    ensures Normal(Trimmed(ws)) && !RuntimeConfig.Cyclic(heap, ws.config)
  {}

  /** The checks of validateWorkspace; whoever stores the result stores a clone of its configuration. */
  method Validate(heap: RuntimeConfig.Heap, ws: Workspace) returns (r: Result<Workspace, Error>)
    requires RuntimeConfig.Closed(heap) && RuntimeConfig.Known(heap, ws.config)
    ensures r.Ok? <==> Acceptable(heap, ws)
    ensures r == if r.Ok? then Ok(Trimmed(ws)) else Err(InvalidWorkspace)
  {
    hide Trim, RuntimeConfig.Cyclic, RuntimeConfig.Closed, RuntimeConfig.Known;
    TrimIdempotent(ws.id);
    TrimIdempotent(ws.runtimeType);
    var n := ws.(id := Trim(ws.id));
    if n.id == "" { return Err(InvalidWorkspace); }
    n := n.(alias := Trim(ws.alias));
    if n.alias == "" || |n.alias| > Protocol.ALIAS_LIMIT { return Err(InvalidWorkspace); }
    if !AliasPattern(n.alias) { return Err(InvalidWorkspace); }
    n := n.(runtimeType := Trim(ws.runtimeType));
    if n.runtimeType == "" { return Err(InvalidWorkspace); }
    if n.kind.OtherKind? { return Err(InvalidWorkspace); }
    if |n.description| > DESCRIPTION_LIMIT { return Err(InvalidWorkspace); }
    var cyclic := RuntimeConfig.HasCycle(heap, n.config);
    if cyclic { return Err(InvalidWorkspace); }
    r := Ok(n);
  }

  // ----- the catalog as a value -----

  datatype Catalog = Catalog(byId: map<string, Workspace>, byAlias: map<string, string>, factories: map<string, Factory>, defaultId: string)

  const EMPTY := Catalog(map[], map[], map[], "")

  ghost predicate EntriesNormal(byId: map<string, Workspace>) {
    forall id :: id in byId ==> byId[id].id == id && Normal(byId[id])
  }

  ghost predicate AliasesAgree(byId: map<string, Workspace>, byAlias: map<string, string>) {
    && (forall id :: id in byId ==> byId[id].alias in byAlias && byAlias[byId[id].alias] == id)
    && (forall a :: a in byAlias ==> byAlias[a] in byId && byId[byAlias[a]].alias == a)
  }

  /** The default flag stands on the entry defaultId names and nowhere else. */
  ghost predicate DefaultAgrees(byId: map<string, Workspace>, defaultId: string) {
    && "" !in byId
    && (defaultId != "" ==> defaultId in byId)
    && (forall id :: id in byId ==> (byId[id].isDefault <==> id == defaultId))
  }

  ghost predicate Agrees(c: Catalog) {
    && EntriesNormal(c.byId) && AliasesAgree(c.byId, c.byAlias) && DefaultAgrees(c.byId, c.defaultId)
    && c.factories.Keys == c.byId.Keys
  }

  /** No entry but id is the default. */
  function Demoted(byId: map<string, Workspace>, id: string): map<string, Workspace> {
    map x | x in byId :: if x == id then byId[x] else byId[x].(isDefault := false)
  }

  /** The entry goes in; the catalog has at most one default, the last one that asked to be. */
  function Stored(c: Catalog, ws: Workspace): Catalog {
    c.(byId := (if ws.isDefault then Demoted(c.byId, ws.id) else c.byId)[ws.id := ws],
       defaultId := if ws.isDefault then ws.id else if c.defaultId == ws.id then "" else c.defaultId)
  }

  /** The catalog once a new entry is in. */
  function Added(c: Catalog, ws: Workspace, factory: Factory): Catalog {
    Stored(c, ws).(byAlias := c.byAlias[ws.alias := ws.id], factories := c.factories[ws.id := factory])
  }

  lemma StoredEntries(c: Catalog, ws: Workspace)
    requires EntriesNormal(c.byId) && DefaultAgrees(c.byId, c.defaultId) && Normal(ws)
    ensures EntriesNormal(Stored(c, ws).byId) && DefaultAgrees(Stored(c, ws).byId, Stored(c, ws).defaultId)
  {
    hide Normal;
    NormalFacts(ws);
    forall x | x in c.byId ensures Normal(c.byId[x].(isDefault := false)) { NormalFacts(c.byId[x]); }
  }

  lemma NormalFacts(ws: Workspace)
    requires Normal(ws)
    ensures ws.id != "" && Protocol.ValidAlias(ws.alias) && Normal(ws.(isDefault := false))
    ensures forall c :: Normal(ws.(config := c))
  {
    hide Trim, Protocol.ValidAlias;
  }

  lemma StoredAgrees(c: Catalog, ws: Workspace)
    requires Agrees(c) && Normal(ws) && ws.id in c.byId && c.byId[ws.id].alias == ws.alias
    ensures Agrees(Stored(c, ws))
  {
    hide Normal, EntriesNormal, DefaultAgrees;
    StoredEntries(c, ws);
    StoredAliases(c, ws);
    assert Stored(c, ws).byId.Keys == c.byId.Keys;
    hide AliasesAgree;
  }

  lemma StoredAliases(c: Catalog, ws: Workspace)
    requires AliasesAgree(c.byId, c.byAlias) && ws.id in c.byId && c.byId[ws.id].alias == ws.alias
    ensures AliasesAgree(Stored(c, ws).byId, c.byAlias)
  {}

  lemma AddedAgrees(c: Catalog, ws: Workspace, factory: Factory)
    requires Agrees(c) && Normal(ws) && ws.id !in c.byId && ws.alias !in c.byAlias
    ensures Agrees(Added(c, ws, factory))
  {
    hide Normal;
    StoredEntries(c, ws);
    hide EntriesNormal, DefaultAgrees;
  }

  lemma EnabledAgrees(c: Catalog, id: string, enabled: bool)
    requires Agrees(c) && id in c.byId
    ensures Agrees(c.(byId := c.byId[id := c.byId[id].(enabled := enabled)]))
  {
    hide Trim, Protocol.ValidAlias;
  }

  /** Clearing the flag of the entry defaultId names clears it everywhere else than on ws. */
  lemma DemotedOne(c: Catalog, ws: Workspace)
    requires DefaultAgrees(c.byId, c.defaultId) && ws.isDefault
    ensures Demoted(c.byId, ws.id)[ws.id := ws] ==
      (if c.defaultId != "" && c.defaultId != ws.id then c.byId[c.defaultId := c.byId[c.defaultId].(isDefault := false)] else c.byId)[ws.id := ws]
  {}

  function Lookup(c: Catalog, id: string): Result<(Workspace, Factory), Error> {
    if id !in c.byId then Err(WorkspaceNotFound)
    else if !c.byId[id].enabled then Err(WorkspaceDisabled)
    else if id !in c.factories then Err(InvalidWorkspace)
    else Ok((c.byId[id], c.factories[id]))
  }

  function LookupAlias(c: Catalog, alias: string): Result<(Workspace, Factory), Error> {
    if Trim(alias) !in c.byAlias then Err(AliasNotFound) else Lookup(c, c.byAlias[Trim(alias)])
  }

  lemma AliasTrims(alias: string)
    requires Protocol.ValidAlias(alias)
    ensures Trim(alias) == alias
  {
    forall i | 0 <= i < |alias| ensures !IsSpace(alias[i]) { assert Protocol.AliasChar(alias[i]); }
    TrimNoSpace(alias);
  }

  /** An alias is found exactly when one entry has it, and then it is that entry that is found. */
  lemma AliasFindsItsEntry(c: Catalog, ws: Workspace)
    requires Agrees(c) && ws.id in c.byId && c.byId[ws.id] == ws
    ensures LookupAlias(c, ws.alias) == if ws.enabled then Ok((ws, c.factories[ws.id])) else Err(WorkspaceDisabled)
    ensures forall id :: id in c.byId && c.byId[id].alias == ws.alias ==> id == ws.id
  {
    hide Normal, Trim, Protocol.ValidAlias;
    NormalFacts(ws);
    AliasTrims(ws.alias);
  }

  /** A stored entry is never missing its factory, so a lookup of a known id fails only when it is disabled. */
  lemma LookupFails(c: Catalog, id: string)
    requires Agrees(c)
    ensures Lookup(c, id).Err? <==> id !in c.byId || !c.byId[id].enabled
    ensures Lookup(c, id).Ok? ==> Lookup(c, id).value.0 == c.byId[id]
  {}

  /** A new entry in full: stored under its id and alias with its factory; as the default it takes the flag from all others. */
  lemma AddedIs(c: Catalog, ws: Workspace, factory: Factory)
    requires Agrees(c) && ws.id !in c.byId
    ensures var d := Added(c, ws, factory);
      && d.byId.Keys == c.byId.Keys + {ws.id} && d.byId[ws.id] == ws
      && (forall x :: x in c.byId ==> d.byId[x] == if ws.isDefault then c.byId[x].(isDefault := false) else c.byId[x])
      && d.byAlias == c.byAlias[ws.alias := ws.id] && d.factories == c.factories[ws.id := factory]
      && d.defaultId == if ws.isDefault then ws.id else c.defaultId
  {
    hide Trim, Protocol.ValidAlias;
  }

  /** A changed entry in full: nothing else changes but the flag, which the entry takes from all others, or gives up. */
  lemma StoredIs(c: Catalog, ws: Workspace)
    requires ws.id in c.byId
    ensures var d := Stored(c, ws);
      && d.byId.Keys == c.byId.Keys && d.byId[ws.id] == ws && d.byAlias == c.byAlias && d.factories == c.factories
      && (forall x :: x in c.byId && x != ws.id ==> d.byId[x] == if ws.isDefault then c.byId[x].(isDefault := false) else c.byId[x])
      && d.defaultId == if ws.isDefault then ws.id else if c.defaultId == ws.id then "" else c.defaultId
  {}

  /** Each answer of a lookup, and when it is given. */
  lemma LookupIs(c: Catalog, id: string, alias: string)
    requires Agrees(c)
    ensures Lookup(c, id) == Err(WorkspaceNotFound) <==> id !in c.byId
    ensures Lookup(c, id) == Err(WorkspaceDisabled) <==> id in c.byId && !c.byId[id].enabled
    ensures Lookup(c, id).Ok? <==> id in c.byId && c.byId[id].enabled
    ensures Lookup(c, id).Ok? ==> Lookup(c, id).value == (c.byId[id], c.factories[id])
    ensures LookupAlias(c, alias) == Err(AliasNotFound) <==> Trim(alias) !in c.byAlias
    ensures Trim(alias) in c.byAlias ==> LookupAlias(c, alias) == Lookup(c, c.byAlias[Trim(alias)])
  {
    hide Trim, Normal;
  }

  /** What is let in: an id, an alias of one to 64 letters, digits, dashes and underscores, a type, a known kind, a short description, no cycle. */
  lemma AcceptableIff(heap: RuntimeConfig.Heap, ws: Workspace)
    ensures Acceptable(heap, ws) <==>
      && Trim(ws.id) != "" && Trim(ws.runtimeType) != "" && !ws.kind.OtherKind? && |ws.description| <= 256
      && 1 <= |Trim(ws.alias)| <= 64
      && (forall i :: 0 <= i < |Trim(ws.alias)| ==>
            var x := Trim(ws.alias)[i]; 'A' <= x <= 'Z' || 'a' <= x <= 'z' || '0' <= x <= '9' || x == '_' || x == '-')
      && !RuntimeConfig.Cyclic(heap, ws.config)
  {
    TrimIdempotent(ws.id);
    TrimIdempotent(ws.runtimeType);
    hide Trim, RuntimeConfig.Cyclic;
  }

  lemma OneDefault(c: Catalog, a: string, b: string)
    requires Agrees(c) && a in c.byId && b in c.byId && c.byId[a].isDefault && c.byId[b].isDefault
    ensures a == b == c.defaultId
  {}

  /** From catalog to message and back: the printed alias of an enabled entry leads to that entry, with the text. */
  lemma RoutingRoundTrip(c: Catalog, ws: Workspace, text: string)
    requires Agrees(c) && ws.id in c.byId && c.byId[ws.id] == ws && ws.enabled
    ensures var r := Protocol.ParseDirective(Protocol.Format(ws.alias) + "\n" + text);
      && r.Explicit? && r.payload == Protocol.NormalizeLineEndings(text)
      && LookupAlias(c, r.alias) == Ok((ws, c.factories[ws.id]))
  {
    Protocol.FormatRoundTrip(ws.alias, text);
    AliasFindsItsEntry(c, ws);
  }

  // ----- the cells behind the entries -----

  ghost predicate EntriesDenote(kept: RuntimeConfig.Heap, byId: map<string, Workspace>) {
    forall id :: id in byId ==> RuntimeConfig.Denotes(kept, byId[id].config)
  }

  lemma StoredDenotes(c: Catalog, ws: Workspace, a: RuntimeConfig.Heap, b: RuntimeConfig.Heap)
    requires EntriesDenote(a, c.byId) && RuntimeConfig.Extends(a, b) && RuntimeConfig.Denotes(b, ws.config)
    ensures EntriesDenote(b, Stored(c, ws).byId)
  {
    forall id | id in c.byId ensures RuntimeConfig.Denotes(b, c.byId[id].config) {
      RuntimeConfig.DenotesFrame(a, b, c.byId[id].config);
    }
    hide RuntimeConfig.Denotes;
  }

  /** The clone's own cells join those kept. */
  lemma CloneIsKept(kept: RuntimeConfig.Heap, was: RuntimeConfig.Heap, now: RuntimeConfig.Heap, c: RuntimeConfig.Value, t: RuntimeConfig.Tree)
    requires RuntimeConfig.Extends(kept, was) && RuntimeConfig.Extends(was, now) && RuntimeConfig.Unfolds(now - was.Keys, c, t)
    ensures var kept' := kept + (now - was.Keys);
      && RuntimeConfig.Extends(kept, kept') && RuntimeConfig.Extends(kept', now)
      && RuntimeConfig.Denotes(kept', c)
  {
    RuntimeConfig.UnfoldsFrame(now - was.Keys, kept + (now - was.Keys), c, t);
  }

  lemma KeptGrows(c: Catalog, ws: Workspace, kept: RuntimeConfig.Heap, was: RuntimeConfig.Heap, now: RuntimeConfig.Heap, t: RuntimeConfig.Tree)
    requires EntriesDenote(kept, c.byId) && RuntimeConfig.Extends(kept, was) && RuntimeConfig.Extends(was, now)
    requires RuntimeConfig.Unfolds(now - was.Keys, ws.config, t)
    ensures var kept' := kept + (now - was.Keys);
      EntriesDenote(kept', Stored(c, ws).byId) && RuntimeConfig.Extends(kept', now)
  {
    hide EntriesDenote, Stored, RuntimeConfig.Extends, RuntimeConfig.Unfolds, RuntimeConfig.Denotes;
    CloneIsKept(kept, was, now, ws.config, t);
    StoredDenotes(c, ws, kept, kept + (now - was.Keys));
  }

  /** While the kept cells stand, whatever else happens on the heap, a stored configuration denotes the same tree. */
  lemma EntriesAreSealed(kept: RuntimeConfig.Heap, a: RuntimeConfig.Heap, b: RuntimeConfig.Heap, config: RuntimeConfig.Value, t: RuntimeConfig.Tree)
    requires RuntimeConfig.Extends(kept, a) && RuntimeConfig.Extends(kept, b) && RuntimeConfig.Denotes(kept, config)
    ensures RuntimeConfig.Unfolds(a, config, t) <==> RuntimeConfig.Unfolds(b, config, t)
  {
    hide RuntimeConfig.Unfolds;
    var u :| RuntimeConfig.Unfolds(kept, config, u);
    RuntimeConfig.UnfoldsFrame(kept, a, config, u);
    RuntimeConfig.UnfoldsFrame(kept, b, config, u);
    if RuntimeConfig.Unfolds(a, config, t) { RuntimeConfig.UnfoldsUnique(a, config, t, u); }
    if RuntimeConfig.Unfolds(b, config, t) { RuntimeConfig.UnfoldsUnique(b, config, t, u); }
  }

  /** The answer to a lookup: its error, or the entry and factory found, with a clone of the configuration. */
  ghost predicate HandsOut(was: RuntimeConfig.Heap, now: RuntimeConfig.Heap, found: Result<(Workspace, Factory), Error>, r: Result<(Workspace, Factory), Error>) {
    match found
    case Err(e) => r == Err(e) && now == was
    case Ok((ws, factory)) =>
      r.Ok? && r.value == (ws.(config := r.value.0.config), factory)
      && RuntimeConfig.ClonedFrom(was, ws.config, now, r.value.0.config)
  }

  // ----- the registry -----

  /** Nobody else holds a reference to the cells in kept: they are made on the way in, and lookups hand out clones. */
  class MemoryRegistry {
    var byId: map<string, Workspace>
    var byAlias: map<string, string>
    var factories: map<string, Factory>
    var defaultId: string
    ghost var kept: RuntimeConfig.Heap

    ghost function View(): Catalog
      reads this
    {
      Catalog(byId, byAlias, factories, defaultId)
    }

    ghost predicate Valid()
      reads this
    {
      Agrees(View()) && EntriesDenote(kept, byId)
    }

    constructor ()
      ensures Valid() && View() == EMPTY && kept == map[]
    {
      byId, byAlias, factories, defaultId := map[], map[], map[], "";
      kept := map[];
    }

    method Register(mem: RuntimeConfig.Memory, ws: Workspace, factory: Option<Factory>)
      returns (r: Result<(), Error>, ghost stored: RuntimeConfig.Value)
      requires Valid() && mem.Valid() && RuntimeConfig.Closed(mem.heap) && RuntimeConfig.Known(mem.heap, ws.config)
      requires RuntimeConfig.Extends(kept, mem.heap)
      modifies this, mem
      ensures Valid() && mem.Valid() && RuntimeConfig.Extends(kept, mem.heap)
      ensures r.Ok? <==>
        && factory.Some? && Acceptable(old(mem.heap), ws)
        && Trim(ws.id) !in old(byId) && Trim(ws.alias) !in old(byAlias)
      ensures r.Err? ==> View() == old(View()) && kept == old(kept) && mem.heap == old(mem.heap)
      ensures r.Err? && factory.Some? && Acceptable(old(mem.heap), ws) && Trim(ws.id) !in old(byId) ==>
        r == Err(AliasConflict)
      ensures r.Ok? ==> View() == Added(old(View()), Trimmed(ws).(config := stored), factory.value)
      ensures r.Ok? ==> RuntimeConfig.ClonedFrom(old(mem.heap), ws.config, mem.heap, stored)
      ensures r.Ok? ==> kept == old(kept) + (mem.heap - old(mem.heap).Keys)
    {
      hide Acceptable, Normal, EntriesNormal, AliasesAgree, Trim, Demoted, RuntimeConfig.Cyclic, RuntimeConfig.Closed, RuntimeConfig.Known, RuntimeConfig.Unfolds, RuntimeConfig.Extends, EntriesDenote, RuntimeConfig.Denotes;
      stored := ws.config;
      if factory.None? { return Err(InvalidWorkspace), stored; }
      var v := Validate(mem.heap, ws);
      if v.Err? { return Err(v.error), stored; }
      var n := v.value;
      if n.id in byId { return Err(InvalidWorkspace), stored; }
      if n.alias in byAlias { return Err(AliasConflict), stored; }
      AcceptedFacts(mem.heap, ws);
      NormalFacts(n);
      var c, t := mem.CloneConfig(n.config);
      n, stored := n.(config := c), c;
      KeptGrows(View(), n, kept, old(mem.heap), mem.heap, t);
      kept := kept + (mem.heap - old(mem.heap).Keys);
      AddedAgrees(View(), n, factory.value);
      if n.isDefault { DemotedOne(View(), n); }
      if n.isDefault && defaultId != "" && defaultId != n.id {
        byId := byId[defaultId := byId[defaultId].(isDefault := false)];
      }
      byId := byId[n.id := n];
      byAlias := byAlias[n.alias := n.id];
      factories := factories[n.id := factory.value];
      if n.isDefault { defaultId := n.id; }
      r := Ok(());
    }

    method Update(mem: RuntimeConfig.Memory, ws: Workspace)
      returns (r: Result<(), Error>, ghost stored: RuntimeConfig.Value)
      requires Valid() && mem.Valid() && RuntimeConfig.Closed(mem.heap) && RuntimeConfig.Known(mem.heap, ws.config)
      requires RuntimeConfig.Extends(kept, mem.heap)
      modifies this, mem
      ensures Valid() && mem.Valid() && RuntimeConfig.Extends(kept, mem.heap)
      ensures r.Ok? <==>
        && Acceptable(old(mem.heap), ws)
        && Trim(ws.id) in old(byId) && old(byId)[Trim(ws.id)].alias == Trim(ws.alias)
      ensures r.Err? ==> View() == old(View()) && kept == old(kept) && mem.heap == old(mem.heap)
      ensures r == Err(WorkspaceNotFound) <==>
        Acceptable(old(mem.heap), ws) && Trim(ws.id) !in old(byId)
      ensures r.Ok? ==> View() == Stored(old(View()), Trimmed(ws).(config := stored))
      ensures r.Ok? ==> RuntimeConfig.ClonedFrom(old(mem.heap), ws.config, mem.heap, stored)
      ensures r.Ok? ==> kept == old(kept) + (mem.heap - old(mem.heap).Keys)
    {
      hide Acceptable, Normal, EntriesNormal, AliasesAgree, Trim, Demoted, RuntimeConfig.Cyclic, RuntimeConfig.Closed, RuntimeConfig.Known, RuntimeConfig.Unfolds, RuntimeConfig.Extends, EntriesDenote, RuntimeConfig.Denotes;
      stored := ws.config;
      var v := Validate(mem.heap, ws);
      if v.Err? { return Err(v.error), stored; }
      var n := v.value;
      if n.id !in byId { return Err(WorkspaceNotFound), stored; }
      if n.alias != byId[n.id].alias { return Err(InvalidWorkspace), stored; }
      AcceptedFacts(mem.heap, ws);
      NormalFacts(n);
      var c, t := mem.CloneConfig(n.config);
      n, stored := n.(config := c), c;
      ghost var now := mem.heap;
      KeptGrows(View(), n, kept, old(mem.heap), now, t);
      assert RuntimeConfig.ClonedFrom(old(mem.heap), ws.config, now, c);
      hide RuntimeConfig.ClonedFrom;
      kept := kept + (mem.heap - old(mem.heap).Keys);
      StoredAgrees(View(), n);
      if n.isDefault { DemotedOne(View(), n); }
      assert View() == old(View()) && mem.heap == now;
      if n.isDefault && defaultId != "" && defaultId != n.id {
        byId := byId[defaultId := byId[defaultId].(isDefault := false)];
        defaultId := n.id;
      } else if n.isDefault {
        defaultId := n.id;
      } else if defaultId == n.id {
        defaultId := "";
      }
      byId := byId[n.id := n];
      r := Ok(());
    }

    /** Enable and Disable: only the flag of that entry changes. */
    method SetEnabled(id: string, enabled: bool) returns (r: Result<(), Error>)
      requires Valid()
      modifies this
      ensures Valid() && kept == old(kept)
      ensures r == if Trim(id) in old(byId) then Ok(()) else Err(WorkspaceNotFound)
      ensures View() == if r.Err? then old(View())
                        else old(View()).(byId := old(byId)[Trim(id) := old(byId)[Trim(id)].(enabled := enabled)])
    {
      hide Trim, EntriesNormal, AliasesAgree, DefaultAgrees;
      var key := Trim(id);
      if key !in byId { return Err(WorkspaceNotFound); }
      var ws := byId[key];
      if ws.enabled == enabled {
        assert byId == byId[key := ws];
        return Ok(());
      }
      EnabledAgrees(View(), key, enabled);
      byId := byId[key := ws.(enabled := enabled)];
      r := Ok(());
    }

    method FindById(mem: RuntimeConfig.Memory, id: string) returns (r: Result<(Workspace, Factory), Error>)
      requires Valid() && mem.Valid() && RuntimeConfig.Extends(kept, mem.heap)
      modifies mem
      ensures mem.Valid() && HandsOut(old(mem.heap), mem.heap, Lookup(View(), Trim(id)), r)
    {
      r := FindLocked(mem, Trim(id));
    }

    method FindLocked(mem: RuntimeConfig.Memory, id: string) returns (r: Result<(Workspace, Factory), Error>)
      requires Valid() && mem.Valid() && RuntimeConfig.Extends(kept, mem.heap)
      modifies mem
      ensures mem.Valid() && HandsOut(old(mem.heap), mem.heap, Lookup(View(), id), r)
    {
      hide RuntimeConfig.Unfolds, RuntimeConfig.Extends, RuntimeConfig.Denotes, Agrees;
      if id !in byId { return Err(WorkspaceNotFound); }
      if !byId[id].enabled { return Err(WorkspaceDisabled); }
      if id !in factories { return Err(InvalidWorkspace); }
      var ws := byId[id];
      ghost var t := RuntimeConfig.KeptTree(kept, mem.heap, ws.config);
      var c := mem.CloneValue(ws.config, t);
      r := Ok((ws.(config := c), factories[id]));
    }

    method FindByAlias(mem: RuntimeConfig.Memory, alias: string) returns (r: Result<(Workspace, Factory), Error>)
      requires Valid() && mem.Valid() && RuntimeConfig.Extends(kept, mem.heap)
      modifies mem
      ensures mem.Valid() && HandsOut(old(mem.heap), mem.heap, LookupAlias(View(), alias), r)
      ensures r.Ok? ==> r.value.0.alias == Trim(alias) && r.value.0.enabled
    {
      if Trim(alias) !in byAlias { return Err(AliasNotFound); }
      r := FindLocked(mem, byAlias[Trim(alias)]);
    }

    method Default(mem: RuntimeConfig.Memory) returns (r: Result<(Workspace, Factory), Error>)
      requires Valid() && mem.Valid() && RuntimeConfig.Extends(kept, mem.heap)
      modifies mem
      ensures mem.Valid()
      ensures HandsOut(old(mem.heap), mem.heap, if defaultId == "" then Err(NoDefaultWorkspace) else Lookup(View(), defaultId), r)
      ensures r == Err(NoDefaultWorkspace) <==> forall id :: id in byId ==> !byId[id].isDefault
      ensures r.Ok? ==> r.value.0.isDefault && r.value.0.enabled
      ensures r.Err? ==> r.error == NoDefaultWorkspace || r.error == WorkspaceDisabled
    {
      if defaultId == "" { return Err(NoDefaultWorkspace); }
      r := FindLocked(mem, defaultId);
    }
  }
}
