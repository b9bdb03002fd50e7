/** What syncing the connector tools achieves, and what the check before a call lets through. */
module ConnectorProps {
  import opened Options
  import opened ToolNames
  import opened Connectors

  /** What an MCP connector lists: from the cache, or else from its server, if that answers. */
  ghost predicate Knows(c: Connector, k: Caches, servers: Servers, tools: seq<McpTool>) {
    if c.id in k.schemas then k.schemas[c.id] == tools else c.id in servers && servers[c.id] == Lists(tools)
  }

  /** An enabled tool that a connector is known to have; a tool of an MCP server is enabled unless it is turned off. */
  ghost predicate Offers(c: Connector, k: Caches, servers: Servers, tool: string) {
    || (c.ctype == "api" && exists t :: t in c.tools && t.name == tool && t.enabled)
    || (c.ctype == "mcp" && (tool !in c.states || c.states[tool])
        && exists tools, t: McpTool :: Knows(c, k, servers, tools) && t in tools && t.name == tool)
  }

  lemma KnowsListed(c: Connector, k: Caches, servers: Servers, tools: seq<McpTool>)
    ensures Knows(c, k, servers, tools) <==> Listed(c, k, servers) == Some(tools)
  {
  }

  /** The global names of the enabled tools of the enabled connectors that can be reached or are cached. */
  ghost predicate Active(store: seq<Connector>, k: Caches, servers: Servers, name: string) {
    exists c, tool :: c in store && c.enabled && Offers(c, k, servers, tool) && name == GlobalToolName(c.id, tool)
  }

  /** What asking a connector leaves in the caches: its connection if it answers, its tools if it lists any. */
  lemma DiscoveryLeaves(c: Connector, k: Caches, servers: Servers)
    ensures var (after, tools) := McpTools(c, k, servers);
      && after.schemas == (if tools.Some? then k.schemas[c.id := tools.value] else k.schemas)
      && after.connections == k.connections +
           if c.id !in k.schemas && c.id in servers && !servers[c.id].Down? then {c.id} else {}
  {
    assert c.id in k.schemas ==> k.schemas[c.id := k.schemas[c.id]] == k.schemas;
  }

  lemma {:induction false} ApiEntriesAre(c: Connector, tools: seq<ApiTool>, e: Entry)
    ensures e in ApiEntries(c, tools) <==> exists t :: t in tools && t.enabled && e == EntryFor(c, t.name)
  {
    if tools != [] {
      ApiEntriesAre(c, tools[..|tools| - 1], e);
      assert tools == tools[..|tools| - 1] + [tools[|tools| - 1]];
    }
  }

  lemma {:induction false} McpEntriesAre(c: Connector, tools: seq<McpTool>, e: Entry)
    ensures e in McpEntries(c, tools) <==> exists t :: t in tools && ToolEnabled(c, t.name) && e == EntryFor(c, t.name)
  {
    if tools != [] {
      McpEntriesAre(c, tools[..|tools| - 1], e);
      assert tools == tools[..|tools| - 1] + [tools[|tools| - 1]];
    }
  }

  lemma VisitIs(c: Connector, k: Caches, servers: Servers, e: Entry)
    ensures e in Visit(c, k, servers).1 <==> Offers(c, k, servers, e.tool.original) && e == EntryFor(c, e.tool.original)
  {
    hide McpTools, GlobalToolName;
    if c.ctype == TYPE_API {
      ApiEntriesAre(c, c.tools, e);
    } else if c.ctype == TYPE_MCP {
      forall tools ensures Knows(c, k, servers, tools) <==> Listed(c, k, servers) == Some(tools) {
        KnowsListed(c, k, servers, tools);
      }
      hide Knows;
      if Listed(c, k, servers).Some? { McpEntriesAre(c, Listed(c, k, servers).value, e); }
    }
  }

  /** A visit does not change what other connectors, or the same one, are known to list. */
  lemma VisitKeepsLists(c: Connector, k: Caches, servers: Servers)
    ensures forall d: Connector :: Listed(d, Visit(c, k, servers).0, servers) == Listed(d, k, servers)
  {
  }

  lemma {:induction false} VisitAllIs(rows: seq<Connector>, k: Caches, servers: Servers, e: Entry)
    ensures e in VisitAll(rows, k, servers).1 <==> exists c :: c in rows && e in Visit(c, k, servers).1
    ensures forall d: Connector :: Listed(d, VisitAll(rows, k, servers).0, servers) == Listed(d, k, servers)
  {
    hide Visit, Listed, Offers;
    if rows != [] {
      var init, last := rows[..|rows| - 1], rows[|rows| - 1];
      var k' := VisitAll(init, k, servers).0;
      VisitAllIs(init, k, servers, e);
      assert rows == init + [last];
      VisitKeepsLists(last, k', servers);
      SameVisit(last, k', k, servers, e);
    }
  }

  lemma SameVisit(c: Connector, k: Caches, k': Caches, servers: Servers, e: Entry)
    requires Listed(c, k, servers) == Listed(c, k', servers)
    ensures e in Visit(c, k, servers).1 <==> e in Visit(c, k', servers).1
  {
  }

  lemma {:induction false} CollectIs(entries: seq<Entry>)
    ensures forall name :: name in Collect(entries) ==> Entry(name, Collect(entries)[name]) in entries
    ensures forall e :: e in entries ==> e.name in Collect(entries)
  {
    if entries != [] {
      CollectIs(entries[..|entries| - 1]);
      assert entries == entries[..|entries| - 1] + [entries[|entries| - 1]];
    }
  }

  /** Of two tools with one name the later stays. */
  lemma {:induction false} LaterStays(entries: seq<Entry>, i: nat)
    requires i < |entries| && forall j :: i < j < |entries| ==> entries[j].name != entries[i].name
    ensures entries[i].name in Collect(entries) && Collect(entries)[entries[i].name] == entries[i].tool
  {
    if i < |entries| - 1 { LaterStays(entries[..|entries| - 1], i); }
  }

  lemma {:induction false} EnabledRowsAre(store: seq<Connector>)
    ensures forall c :: c in EnabledRows(store) <==> c in store && c.enabled
  {
    if store != [] {
      EnabledRowsAre(store[..|store| - 1]);
      assert store == store[..|store| - 1] + [store[|store| - 1]];
    }
  }

  /** An index entry, from the tool that some enabled connector offers. */
  ghost predicate Traced(store: seq<Connector>, k: Caches, servers: Servers, name: string, r: ResolvedTool) {
    exists c :: c in store && c.enabled && Offers(c, k, servers, r.original) && Entry(name, r) ==
      EntryFor(c, r.original)
  }

  lemma DesiredIs(store: seq<Connector>, k: Caches, servers: Servers)
    ensures var desired := Collect(VisitAll(EnabledRows(store), k, servers).1);
      && (forall name :: name in desired <==> Active(store, k, servers, name))
      && (forall name :: name in desired ==> Traced(store, k, servers, name, desired[name]))
  {
    hide VisitAll, Visit, Collect, EnabledRows, Offers, GlobalToolName;
    var rows := EnabledRows(store);
    var entries := VisitAll(rows, k, servers).1;
    EnabledRowsAre(store);
    CollectIs(entries);
    forall e ensures e in entries <==> Traced(store, k, servers, e.name, e.tool) {
      VisitAllIs(rows, k, servers, e);
      forall c ensures e in Visit(c, k, servers).1 <==>
        Offers(c, k, servers, e.tool.original) && e == EntryFor(c, e.tool.original) {
        VisitIs(c, k, servers, e);
      }
    }
    forall name ensures name in Collect(entries) <==> Active(store, k, servers, name) {
      if c, tool :| c in store && c.enabled && Offers(c, k, servers, tool) && name == GlobalToolName(c.id, tool) {
        var e := EntryFor(c, tool);
        assert Traced(store, k, servers, e.name, e.tool);
      }
      if name in Collect(entries) {
        assert Entry(name, Collect(entries)[name]) in entries;
      }
    }
  }

  /**
   * After a sync the index holds exactly the active names. The registry holds these, and names it had
   * that the index did not know.
   */
  lemma SyncReconciles(s: State, store: seq<Connector>, servers: Servers)
    requires s.registry.Some?
    ensures var t := Sync(s, Some(store), servers);
      && t.registry.Some?
      && (forall name :: name in t.index <==> Active(store, s.caches, servers, name))
      && (forall name :: name in t.registry.value <==>
            name in t.index || (name in s.registry.value && name !in s.index))
  {
    DesiredIs(store, s.caches, servers);
    hide VisitAll, Collect, EnabledRows, Described, Active, Traced;
  }

  /** Each entry of the index comes from a tool that some enabled connector offers. */
  lemma SyncTraces(s: State, store: seq<Connector>, servers: Servers)
    requires s.registry.Some?
    ensures var index := Sync(s, Some(store), servers).index;
      forall name :: name in index ==> Traced(store, s.caches, servers, name, index[name])
  {
    hide Described, Register;
    DesiredIs(store, s.caches, servers);
    var desired := Collect(VisitAll(EnabledRows(store), s.caches, servers).1);
    assert Sync(s, Some(store), servers).index == desired;
    forall name | name in desired ensures Traced(store, s.caches, servers, name, desired[name]) {
      assert Active(store, s.caches, servers, name);
      var r := desired[name];
      assert Traced(store, s.caches, servers, name, r);
    }
  }

  ghost predicate InStep(s: State) {
    s.registry.Some? && s.registry.value.Keys == s.index.Keys
  }

  /** Registry and index agree after a sync exactly when every name that only the registry had is now active. */
  lemma InStepIff(s: State, store: seq<Connector>, servers: Servers)
    requires s.registry.Some?
    ensures InStep(Sync(s, Some(store), servers)) <==>
      forall name :: name in s.registry.value && name !in s.index ==> Active(store, s.caches, servers, name)
  {
    hide Sync, Active;
    SyncReconciles(s, store, servers);
  }

  // ---- a second sync ----

  /** A connector whose visit no longer changes the caches. */
  ghost predicate Settled(c: Connector, k: Caches, servers: Servers) {
    Visit(c, k, servers).0 == k
  }

  lemma VisitSettles(c: Connector, k: Caches, servers: Servers)
    ensures Settled(c, Visit(c, k, servers).0, servers)
    ensures forall d :: Settled(d, k, servers) ==> Settled(d, Visit(c, k, servers).0, servers)
  {
  }

  lemma {:induction false} AllSettle(rows: seq<Connector>, k: Caches, servers: Servers)
    ensures forall c :: c in rows ==> Settled(c, VisitAll(rows, k, servers).0, servers)
  {
    hide Visit, Settled;
    if rows != [] {
      var init, last := rows[..|rows| - 1], rows[|rows| - 1];
      AllSettle(init, k, servers);
      VisitSettles(last, VisitAll(init, k, servers).0, servers);
      assert rows == init + [last];
    }
  }

  lemma {:induction false} VisitAgain(rows: seq<Connector>, k: Caches, k': Caches, servers: Servers)
    requires forall c :: c in rows ==> Settled(c, k', servers)
    requires forall c: Connector :: Listed(c, k', servers) == Listed(c, k, servers)
    ensures VisitAll(rows, k', servers) == (k', VisitAll(rows, k, servers).1)
  {
    hide Visit, Listed;
    if rows != [] {
      var init, last := rows[..|rows| - 1], rows[|rows| - 1];
      assert rows == init + [last];
      VisitAgain(init, k, k', servers);
      var k'' := VisitAll(init, k, servers).0;
      VisitAllIs(init, k, servers, EntryFor(last, ""));
      SameEntries(last, k', k'', servers);
      assert Settled(last, k', servers);
      assert VisitAll(rows, k, servers).1 == VisitAll(init, k, servers).1 + Visit(last, k'', servers).1;
      assert VisitAll(init, k', servers) == (k', VisitAll(init, k, servers).1);
      assert VisitAll(rows, k', servers).1 == VisitAll(init, k', servers).1 + Visit(last, k', servers).1;
    }
  }

  lemma SameEntries(c: Connector, k: Caches, k': Caches, servers: Servers)
    requires Listed(c, k, servers) == Listed(c, k', servers)
    ensures Visit(c, k, servers).1 == Visit(c, k', servers).1
  {
  }

  /** A second sync, with the same store and the same servers, changes nothing. */
  lemma SecondSyncChangesNothing(s: State, store: Option<seq<Connector>>, servers: Servers)
    ensures var t := Sync(s, store, servers); Sync(t, store, servers) == t
  {
    if s.registry.Some? && store.Some? {
      var rows := EnabledRows(store.value);
      var t := Sync(s, store, servers);
      AllSettle(rows, s.caches, servers);
      VisitAllIs(rows, s.caches, servers, Entry("", ResolvedTool("", "", "", "")));
      VisitAgain(rows, s.caches, t.caches, servers);
      hide VisitAll, Described, Collect, EnabledRows;
      RegisterAgain(s.registry.value - (s.index.Keys - t.index.Keys), t.index, rows, t.caches);
    }
  }

  lemma RegisterAgain(tools: Tools, desired: Index, rows: seq<Connector>, k: Caches)
    ensures var once := Register(tools, desired, rows, k);
      Register(once - (desired.Keys - desired.Keys), desired, rows, k) == once
  {
  }

  // ---- histories ----

  /** What happens to the store and the manager; `Use` is any other listing or call that fills the caches. */
  datatype Event =
    | Edit(store: seq<Connector>)
    | Attach
    | SyncNow(servers: Servers, storeAnswers: bool)
    | Invalidate(id: string)
    | Use(c: Connector, servers: Servers)

  datatype World = World(store: seq<Connector>, manager: State)

  const NO_TOOLS: Tools := map[]
  const NO_INDEX: Index := map[]
  const FRESH := World([], State(None, NO_INDEX, Caches(map[], {})))

  function Happen(w: World, e: Event): World {
    var s := w.manager;
    match e
    case Edit(store) => w.(store := store)
    case Attach => if s.registry.None? then w.(manager := s.(registry := Some(NO_TOOLS))) else w
    case SyncNow(servers, answers) => w.(manager := Sync(s, if answers then Some(w.store) else None, servers))
    case Invalidate(id) => w.(manager := s.(caches := Caches(s.caches.schemas - {id}, s.caches.connections - {id})))
    case Use(c, servers) => w.(manager := s.(caches := McpTools(c, s.caches, servers).0))
  }

  function History(events: seq<Event>): World {
    if events == [] then FRESH else Happen(History(events[..|events| - 1]), events[|events| - 1])
  }

  ghost predicate Agrees(s: State) {
    if s.registry.Some? then s.registry.value.Keys == s.index.Keys else s.index == NO_INDEX
  }

  lemma SyncAgrees(s: State, store: Option<seq<Connector>>, servers: Servers)
    requires Agrees(s)
    ensures Agrees(Sync(s, store, servers))
  {
  }

  lemma {:induction false} AgreesAlways(events: seq<Event>)
    ensures Agrees(History(events).manager)
  {
    if events != [] {
      AgreesAlways(events[..|events| - 1]);
      var w, e := History(events[..|events| - 1]), events[|events| - 1];
      if e.SyncNow? { SyncAgrees(w.manager, if e.storeAnswers then Some(w.store) else None, e.servers); }
      hide Sync, McpTools;
    }
  }

  /** After any history that ends in a successful sync, registry and index hold exactly the active names. */
  lemma EverySyncReconciles(events: seq<Event>, servers: Servers)
    requires History(events).manager.registry.Some?
    ensures var w, t := History(events), History(events + [SyncNow(servers, true)]).manager;
      && t.registry.Some? && t.registry.value.Keys == t.index.Keys
      && forall name :: name in t.index <==> Active(w.store, w.manager.caches, servers, name)
  {
    var all := events + [SyncNow(servers, true)];
    assert all[..|all| - 1] == events;
    AgreesAlways(all);
    SyncReconciles(History(events).manager, History(events).store, servers);
    hide Sync, Active;
  }

  // ---- the check before a call ----

  ghost predicate WellNamed(index: Index) {
    forall name :: name in index ==> name == GlobalToolName(index[name].connectorId, index[name].original)
  }

  lemma {:induction false} WellNamedAlways(events: seq<Event>)
    ensures WellNamed(History(events).manager.index)
  {
    if events != [] {
      WellNamedAlways(events[..|events| - 1]);
      var w, e := History(events[..|events| - 1]), events[|events| - 1];
      if e.SyncNow? && e.storeAnswers && w.manager.registry.Some? {
        SyncTraces(w.manager, w.store, e.servers);
        hide Sync, GlobalToolName, Offers;
        assert WellNamed(History(events).manager.index);
      }
      hide McpTools, GlobalToolName;
    }
  }

  lemma {:induction false} FoundRow(store: seq<Connector>, owner: string, id: string)
    ensures var r := FindRow(store, owner, id);
      (r.Some? ==> r.value in store && r.value.owner == owner && r.value.id == id)
      && (r.None? ==> forall c :: c in store ==> c.owner != owner || c.id != id)
  {
    if store != [] {
      FoundRow(store[1..], owner, id);
      assert store == [store[0]] + store[1..];
    }
  }

  /** The first tool of a name. */
  predicate FirstApi(tools: seq<ApiTool>, name: string, i: int) {
    0 <= i < |tools| && tools[i].name == name && forall j :: 0 <= j < i ==> tools[j].name != name
  }

  predicate FirstMcp(tools: seq<McpTool>, name: string, i: int) {
    0 <= i < |tools| && tools[i].name == name && forall j :: 0 <= j < i ==> tools[j].name != name
  }

  lemma {:induction false} FoundApi(tools: seq<ApiTool>, name: string)
    ensures match FindApi(tools, name)
      case Some(t) => exists i :: FirstApi(tools, name, i) && t == tools[i]
      case None => forall t :: t in tools ==> t.name != name
  {
    if tools != [] {
      if tools[0].name == name {
        assert FirstApi(tools, name, 0);
      } else {
        FoundApi(tools[1..], name);
        if FindApi(tools[1..], name).Some? {
          var i :| FirstApi(tools[1..], name, i) && tools[1..][i] == FindApi(tools[1..], name).value;
          assert FirstApi(tools, name, i + 1);
        }
      }
    }
  }

  lemma {:induction false} FoundMcp(tools: seq<McpTool>, name: string)
    ensures match FindMcp(tools, name)
      case Some(t) => exists i :: FirstMcp(tools, name, i) && t == tools[i]
      case None => forall t :: t in tools ==> t.name != name
  {
    if tools != [] {
      if tools[0].name == name {
        assert FirstMcp(tools, name, 0);
      } else {
        FoundMcp(tools[1..], name);
        if FindMcp(tools[1..], name).Some? {
          var i :| FirstMcp(tools[1..], name, i) && tools[1..][i] == FindMcp(tools[1..], name).value;
          assert FirstMcp(tools, name, i + 1);
        }
      }
    }
  }

  /** The first tool of the name is enabled. */
  ghost predicate FirstIsEnabled(c: Connector, tool: string) {
    exists i :: FirstApi(c.tools, tool, i) && c.tools[i].enabled
  }

  predicate Calls(v: Verdict) {
    v.CallApi? || v.CallServer?
  }

  function CalledTool(v: Verdict): string
    requires Calls(v)
  {
    if v.CallApi? then v.apiTool.name else v.original
  }

  /**
   * However old the index, a call reaches only an enabled connector of the caller's own in the store as it is
   * now, an API tool only if that connector now has it and has it enabled, an MCP tool only if it is not
   * disabled now, and each only under its own global name.
   */
  lemma CallsAreAllowed(events: seq<Event>, user: string, global: string, store: seq<Connector>)
    ensures var v := Gate(History(events).manager.index, user, global, store);
      && (Calls(v) ==>
          && v.connector in store && v.connector.owner == user && v.connector.enabled
          && global == GlobalToolName(v.connector.id, CalledTool(v)))
      && (v.CallApi? ==>
            v.apiTool.enabled
            && exists i :: FirstApi(v.connector.tools, v.apiTool.name, i) && v.apiTool == v.connector.tools[i])
      && (v.CallServer? ==> v.original !in v.connector.states || v.connector.states[v.original])
  {
    hide GlobalToolName, History;
    var index := History(events).manager.index;
    WellNamedAlways(events);
    if global in index {
      FoundRow(store, user, index[global].connectorId);
      var row := FindRow(store, user, index[global].connectorId);
      if row.Some? { FoundApi(row.value.tools, index[global].original); }
    }
  }

  predicate DistinctIds(store: seq<Connector>) {
    forall i, j :: 0 <= i < j < |store| ==> store[i].id != store[j].id
  }

  lemma FirstIsFound(c: Connector, tool: string)
    ensures FirstIsEnabled(c, tool) <==> FindApi(c.tools, tool).Some? && FindApi(c.tools, tool).value.enabled
  {
    FoundApi(c.tools, tool);
  }

  /** Whatever the index: what a call needs to get through. */
  lemma CallableIff(index: Index, user: string, global: string, store: seq<Connector>)
    requires DistinctIds(store)
    ensures Calls(Gate(index, user, global, store)) <==>
      && global in index && index[global].owner == user
      && exists c :: c in store && c.id == index[global].connectorId && c.owner == user && c.enabled
           && var r := index[global];
              || (r.ctype == "api" && FirstIsEnabled(c, r.original))
              || (r.ctype == "mcp" && (r.original !in c.states || c.states[r.original]))
  {
    if global in index {
      var r := index[global];
      FoundRow(store, user, r.connectorId);
      OneRowPerId(store);
      forall c: Connector
        ensures var t := FindApi(c.tools, r.original); FirstIsEnabled(c, r.original) <==> t.Some? && t.value.enabled
      {
        FirstIsFound(c, r.original);
      }
      hide FindApi, FindRow, FirstIsEnabled;
    }
  }

  /**
   * Straight after a sync, a registered tool can be called by its owner, unless a disabled API tool of the
   * same connector stands before it under the same name.
   */
  lemma RegisteredRunsIff(s: State, store: seq<Connector>, servers: Servers, global: string)
    requires s.registry.Some? && DistinctIds(store) && global in Sync(s, Some(store), servers).index
    ensures var index := Sync(s, Some(store), servers).index; var r := index[global];
      Calls(Gate(index, r.owner, global, store)) <==>
      exists c :: c in store && c.id == r.connectorId && (c.ctype == "mcp" || FirstIsEnabled(c, r.original))
  {
    SyncTraces(s, store, servers);
    var index := Sync(s, Some(store), servers).index;
    hide Sync, GlobalToolName, Listed, ToolEnabled;
    var r := index[global];
    assert Traced(store, s.caches, servers, global, r);
    var c :| c in store && c.enabled && Offers(c, s.caches, servers, r.original) && Entry(global, r) ==
      EntryFor(c, r.original);
    FoundRow(store, r.owner, r.connectorId);
    OneRowPerId(store);
    assert FindRow(store, r.owner, r.connectorId) == Some(c);
    FirstIsFound(c, r.original);
    hide FindApi, FindRow, FirstIsEnabled;
    assert FirstIsEnabled(c, r.original) || c.ctype == TYPE_MCP || !Calls(Gate(index, r.owner, global, store));
  }

  lemma OneRowPerId(store: seq<Connector>)
    requires DistinctIds(store)
    ensures forall a, b :: a in store && b in store && a.id == b.id ==> a == b
  {
  }

  /** The registered tool carries what the connector says of its first tool of that name. */
  ghost predicate RegisteredFrom(c: Connector, k: Caches, servers: Servers, original: string, tool: ConnectorTool) {
    && tool.owner == c.owner && tool.name == GlobalToolName(c.id, original)
    && (c.ctype == "api" ==>
          exists i :: FirstApi(c.tools, original, i)
               && tool == ConnectorTool(tool.name, c.tools[i].description, c.tools[i].params, c.owner))
    && (c.ctype == "mcp" ==>
          exists tools: seq<McpTool>, i :: Knows(c, k, servers, tools) && FirstMcp(tools, original, i)
               && tool == ConnectorTool(tool.name, tools[i].description, tools[i].schema, c.owner))
  }

  lemma {:induction false} FoundConnector(rows: seq<Connector>, c: Connector)
    requires c in rows && forall d :: d in rows && d.id == c.id ==> d == c
    ensures FindConnector(rows, c.id) == Some(c)
  {
    if rows[0].id != c.id { FoundConnector(rows[1..], c); }
  }

  lemma {:induction false} NoConnector(rows: seq<Connector>, id: string)
    requires forall c :: c in rows ==> c.id != id
    ensures FindConnector(rows, id) == None
  {
    if rows != [] { NoConnector(rows[1..], id); }
  }

  /** A tool of which nothing is found is registered all the same, without description and for any arguments. */
  lemma UndescribedIs(name: string, r: ResolvedTool, rows: seq<Connector>, k: Caches)
    requires r.ctype == "api" ==> forall c :: c in rows ==> c.id != r.connectorId
    requires r.ctype == "mcp" ==> r.connectorId !in k.schemas
    ensures Described(name, r, rows, k) == ConnectorTool(name, "", "{\"type\":\"object\"}", r.owner)
  {
    if r.ctype == "api" { NoConnector(rows, r.connectorId); }
  }

  /** What a settled connector lists is in the schema cache. */
  lemma SettledIsCached(c: Connector, k: Caches, servers: Servers)
    requires Settled(c, k, servers) && c.ctype == TYPE_MCP && Listed(c, k, servers).Some?
    ensures c.id in k.schemas && k.schemas[c.id] == Listed(c, k, servers).value
  {
  }

  lemma DescribedIs(c: Connector, rows: seq<Connector>, k: Caches, k': Caches, servers: Servers, r: ResolvedTool)
    requires c in rows && Offers(c, k, servers, r.original) && Settled(c, k', servers)
    requires Listed(c, k', servers) == Listed(c, k, servers)
    requires forall d :: d in rows && d.id == c.id ==> d == c
    requires r == ResolvedTool(c.owner, c.id, c.ctype, r.original)
    ensures RegisteredFrom(c, k, servers, r.original, Described(GlobalToolName(c.id, r.original), r, rows, k'))
  {
    hide GlobalToolName, McpTools, FindApi, FindConnector, FindMcp, ToolEnabled;
    FoundConnector(rows, c);
    FoundApi(c.tools, r.original);
    if c.ctype == TYPE_MCP {
      var tools, t: McpTool :| Knows(c, k, servers, tools) && t in tools && t.name == r.original;
      KnowsListed(c, k, servers, tools);
      hide Listed, Knows;
      SettledIsCached(c, k', servers);
      FoundMcp(tools, r.original);
    }
  }

  /**
   * Each tool that a sync registers is described as its connector describes it, and belongs to the connector's owner.
   */
  lemma RegisteredAsOffered(s: State, store: seq<Connector>, servers: Servers, name: string)
    requires s.registry.Some? && DistinctIds(store) && name in Sync(s, Some(store), servers).index
    ensures var t := Sync(s, Some(store), servers);
      && t.registry.Some? && name in t.registry.value
      && var original := t.index[name].original;
         exists c :: c in store && c.enabled && RegisteredFrom(c, s.caches, servers, original, t.registry.value[name])
  {
    var t, rows := Sync(s, Some(store), servers), EnabledRows(store);
    var r := t.index[name];
    SyncTraces(s, store, servers);
    EnabledRowsAre(store);
    AllSettle(rows, s.caches, servers);
    VisitAllIs(rows, s.caches, servers, Entry(name, r));
    OneRowPerId(store);
    assert t.registry.value[name] == Described(name, r, rows, t.caches);
    hide Sync, VisitAll, Collect, EnabledRows, Listed, Offers, Settled, Described, RegisteredFrom, GlobalToolName;
    assert Traced(store, s.caches, servers, name, r);
    var c :| c in store && c.enabled && Offers(c, s.caches, servers, r.original) && Entry(name, r) ==
      EntryFor(c, r.original);
    DescribedIs(c, rows, s.caches, t.caches, servers, r);
  }

  /** Two tools of one name: the second is registered, the first is what a call finds. */
  lemma RegisteredButRefused(servers: Servers)
    ensures var tools := [ApiTool("t", "", "", false), ApiTool("t", "", "", true)];
      var c := Connector("c1aaaaaa", "u", TYPE_API, tools, map[], true);
      var t := Sync(State(Some(NO_TOOLS), NO_INDEX, Caches(map[], {})), Some([c]), servers);
      var name := GlobalToolName("c1aaaaaa", "t");
      name in t.index && Gate(t.index, "u", name, [c]) == ToolDisabled
  {
  }
}
