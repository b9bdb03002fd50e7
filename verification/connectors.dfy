/** Keeping the registry's connector tools in step with the stored connectors. */
module Connectors {
  import opened Options
  import opened ToolNames

  /** A tool of an API connector. */
  datatype ApiTool = ApiTool(name: string, description: string, params: string, enabled: bool)

  /** A tool that an MCP server lists. */
  datatype McpTool = McpTool(name: string, description: string, schema: string)

  /** A row of the store; `tools` is what its configuration decodes to, nothing for other configurations. */
  datatype Connector = Connector(id: string, owner: string, ctype: string, tools: seq<ApiTool>, states: map<string,
      bool>, enabled: bool)

  /** What the server of an MCP connector does when asked: not there, fails to list, or lists its tools. */
  datatype Server = Down | Silent | Lists(tools: seq<McpTool>)

  datatype ResolvedTool = ResolvedTool(owner: string, connectorId: string, ctype: string, original: string)

  datatype ConnectorTool = ConnectorTool(name: string, description: string, params: string, owner: string)

  const TYPE_API: string := "api"
  const TYPE_MCP: string := "mcp"
  const EMPTY_SCHEMA: string := "{\"type\":\"object\"}"

  type Servers = map<string, Server>
  type Index = map<string, ResolvedTool>
  type Tools = map<string, ConnectorTool>

  function ServerOf(servers: Servers, id: string): Server {
    if id in servers then servers[id] else Down
  }

  predicate ToolEnabled(c: Connector, tool: string) {
    tool in c.states ==> c.states[tool]
  }

  // ---- listing tools, with the caches ----

  datatype Caches = Caches(schemas: map<string, seq<McpTool>>, connections: set<string>)

  function McpTools(c: Connector, k: Caches, servers: Servers): (Caches, Option<seq<McpTool>>) {
    if c.id in k.schemas then (k, Some(k.schemas[c.id]))
    else
      match ServerOf(servers, c.id)
      case Down => (k, None)
      case Silent => (k.(connections := k.connections + {c.id}), None)
      case Lists(tools) => (Caches(k.schemas[c.id := tools], k.connections + {c.id}), Some(tools))
  }

  /** The tools an MCP connector is known by. */
  function Listed(c: Connector, k: Caches, servers: Servers): Option<seq<McpTool>> {
    McpTools(c, k, servers).1
  }

  datatype Entry = Entry(name: string, tool: ResolvedTool)

  function EntryFor(c: Connector, tool: string): Entry {
    Entry(GlobalToolName(c.id, tool), ResolvedTool(c.owner, c.id, c.ctype, tool))
  }

  function ApiEntries(c: Connector, tools: seq<ApiTool>): seq<Entry> {
    if tools == [] then []
    else
      var t := tools[|tools| - 1];
      ApiEntries(c, tools[..|tools| - 1]) + (if t.enabled then [EntryFor(c, t.name)] else [])
  }

  function McpEntries(c: Connector, tools: seq<McpTool>): seq<Entry> {
    if tools == [] then []
    else
      var t := tools[|tools| - 1];
      McpEntries(c, tools[..|tools| - 1]) + (if ToolEnabled(c, t.name) then [EntryFor(c, t.name)] else [])
  }

  /** One connector's turn: the caches after it and the entries it adds. */
  function Visit(c: Connector, k: Caches, servers: Servers): (Caches, seq<Entry>) {
    if c.ctype == TYPE_API then (k, ApiEntries(c, c.tools))
    else if c.ctype == TYPE_MCP then
      var (k', tools) := McpTools(c, k, servers);
      (k', if tools.Some? then McpEntries(c, tools.value) else [])
    else (k, [])
  }

  function VisitAll(rows: seq<Connector>, k: Caches, servers: Servers): (Caches, seq<Entry>) {
    if rows == [] then (k, [])
    else
      var (k', entries) := VisitAll(rows[..|rows| - 1], k, servers);
      var (k'', more) := Visit(rows[|rows| - 1], k', servers);
      (k'', entries + more)
  }

  /** Inserting the entries in order; of two with the same name the later stays. */
  function Collect(entries: seq<Entry>): Index {
    if entries == [] then map[]
    else
      var e := entries[|entries| - 1];
      Collect(entries[..|entries| - 1])[e.name := e.tool]
  }

  // ---- what is registered for an entry ----

  function FindConnector(rows: seq<Connector>, id: string): Option<Connector> {
    if rows == [] then None else if rows[0].id == id then Some(rows[0]) else FindConnector(rows[1..], id)
  }

  function FindApi(tools: seq<ApiTool>, name: string): Option<ApiTool> {
    if tools == [] then None else if tools[0].name == name then Some(tools[0]) else FindApi(tools[1..], name)
  }

  function FindMcp(tools: seq<McpTool>, name: string): Option<McpTool> {
    if tools == [] then None else if tools[0].name == name then Some(tools[0]) else FindMcp(tools[1..], name)
  }

  function Described(name: string, tool: ResolvedTool, rows: seq<Connector>, k: Caches): ConnectorTool {
    if tool.ctype == TYPE_API then
      var c := FindConnector(rows, tool.connectorId);
      var t := if c.Some? then FindApi(c.value.tools, tool.original) else None;
      if t.Some? then ConnectorTool(name, t.value.description, t.value.params, tool.owner)
      else ConnectorTool(name, "", EMPTY_SCHEMA, tool.owner)
    else if tool.ctype == TYPE_MCP then
      var t := if tool.connectorId in k.schemas then FindMcp(k.schemas[tool.connectorId], tool.original) else None;
      if t.Some? then ConnectorTool(name, t.value.description, t.value.schema, tool.owner)
      else ConnectorTool(name, "", EMPTY_SCHEMA, tool.owner)
    else ConnectorTool(name, "", EMPTY_SCHEMA, tool.owner)
  }

  // ---- sync_registry ----

  /** The manager, with the dynamic tools of the registry attached to it. */
  datatype State = State(registry: Option<Tools>, index: Index, caches: Caches)

  function EnabledRows(store: seq<Connector>): seq<Connector> {
    if store == [] then []
    else EnabledRows(store[..|store| - 1]) + (if store[|store| - 1].enabled then [store[|store| - 1]] else [])
  }

  function Register(tools: Tools, desired: Index, rows: seq<Connector>, k: Caches): Tools {
    map name | name in tools.Keys + desired.Keys ::
      if name in desired then Described(name, desired[name], rows, k) else tools[name]
  }

  /** A sync against what the store answers, if it answers. */
  function Sync(s: State, store: Option<seq<Connector>>, servers: Servers): State {
    if s.registry.None? || store.None? then s
    else
      var rows := EnabledRows(store.value);
      var (k, entries) := VisitAll(rows, s.caches, servers);
      var desired := Collect(entries);
      var kept := s.registry.value - (s.index.Keys - desired.Keys);
      State(Some(Register(kept, desired, rows, k)), desired, k)
  }

  // ---- the check before a call ----

  datatype Verdict =
    | Unregistered | OtherUser | NoConnector | ConnectorDisabled | NoTool | ToolDisabled | UnknownType
    | CallApi(connector: Connector, apiTool: ApiTool) | CallServer(connector: Connector, original: string)

  function FindRow(store: seq<Connector>, owner: string, id: string): Option<Connector> {
    if store == [] then None
    else if store[0].id == id && store[0].owner == owner then Some(store[0])
    else FindRow(store[1..], owner, id)
  }

  /** What calling a registered tool comes to, for the rows now in the store. */
  function Gate(index: Index, user: string, global: string, store: seq<Connector>): Verdict {
    if global !in index then Unregistered
    else if index[global].owner != user then OtherUser
    else
      var r := index[global];
      match FindRow(store, user, r.connectorId)
      case None => NoConnector
      case Some(c) =>
        if !c.enabled then ConnectorDisabled
        else if r.ctype == TYPE_API then
          match FindApi(c.tools, r.original)
          case None => NoTool
          case Some(t) => if t.enabled then CallApi(c, t) else ToolDisabled
        else if r.ctype == TYPE_MCP then
          if ToolEnabled(c, r.original) then CallServer(c, r.original) else ToolDisabled
        else UnknownType
  }

  /** The dynamic part of the tool registry. */
  class ToolRegistry {
    var dynamic: Tools

    constructor ()
      ensures dynamic == map[]
    {
      dynamic := map[];
    }

    method RegisterDynamic(tool: ConnectorTool)
      modifies this
      ensures dynamic == old(dynamic)[tool.name := tool]
    {
      dynamic := dynamic[tool.name := tool];
    }

    method UnregisterDynamic(name: string)
      modifies this
      ensures dynamic == old(dynamic) - {name}
    {
      dynamic := dynamic - {name};
    }
  }

  class ConnectorManager {
    var registry: ToolRegistry?
    var toolIndex: Index
    var schemaCache: map<string, seq<McpTool>>
    var connections: set<string>

    function Abstract(): State
      reads this, registry
    {
      State(if registry == null then None else Some(registry.dynamic), toolIndex, Caches(schemaCache, connections))
    }

    constructor ()
      ensures Abstract() == State(None, map[], Caches(map[], {}))
    {
      registry, toolIndex, schemaCache, connections := null, map[], map[], {};
    }

    method AttachRegistry(r: ToolRegistry)
      modifies this`registry
      ensures registry == r && Abstract() == old(Abstract()).(registry := Some(r.dynamic))
    {
      registry := r;
    }

    method InvalidateConnector(id: string)
      modifies this`connections, this`schemaCache
      ensures connections == old(connections) - {id} && schemaCache == old(schemaCache) - {id}
    {
      connections := connections - {id};
      schemaCache := schemaCache - {id};
    }

    /** Connects unless connected, then asks for the tools unless they are cached. */
    method DiscoverTools(c: Connector, servers: Servers) returns (r: Option<seq<McpTool>>)
      modifies this`connections, this`schemaCache
      ensures (Caches(schemaCache, connections), r) == McpTools(c, old(Caches(schemaCache, connections)), servers)
    {
      if c.id in schemaCache { return Some(schemaCache[c.id]); }
      var server := ServerOf(servers, c.id);
      if c.id !in connections {
        if server.Down? { return None; }
        connections := connections + {c.id};
      } else {
        assert connections + {c.id} == connections;
      }
      if !server.Lists? { return None; }
      schemaCache := schemaCache[c.id := server.tools];
      return Some(server.tools);
    }

    /** Reconciles the registry with the enabled connectors in the store. */
    method SyncRegistry(store: Option<seq<Connector>>, servers: Servers) returns (ok: bool)
      modifies this`toolIndex, this`connections, this`schemaCache, registry
      ensures Abstract() == Sync(old(Abstract()), store, servers)
      ensures ok <==> registry == null || store.Some?
    {
      if registry == null { return true; }
      if store.None? { return false; }
      var rows := EnabledRows(store.value);
      ghost var entries;
      var desired;
      desired, entries := Desire(rows, servers);
      DropStale(toolIndex.Keys - desired.Keys);
      RegisterAll(desired, rows);
      return true;
    }

    method Desire(rows: seq<Connector>, servers: Servers) returns (desired: Index, ghost entries: seq<Entry>)
      modifies this`connections, this`schemaCache
      ensures (Caches(schemaCache, connections), entries) ==
        VisitAll(rows, old(Caches(schemaCache, connections)), servers)
      ensures desired == Collect(entries)
    {
      ghost var k := Caches(schemaCache, connections);
      desired, entries := map[], [];
      for i := 0 to |rows|
        invariant (Caches(schemaCache, connections), entries) == VisitAll(rows[..i], k, servers)
        invariant desired == Collect(entries)
      {
        var c := rows[i];
        ghost var more := Visit(c, Caches(schemaCache, connections), servers).1;
        assert rows[..i + 1][..i] == rows[..i] && entries + [] == entries;
        if c.ctype == TYPE_API {
          desired := AddApiTools(c, desired, entries);
        } else if c.ctype == TYPE_MCP {
          var tools := DiscoverTools(c, servers);
          if tools.Some? { desired := AddMcpTools(c, tools.value, desired, entries); }
        }
        entries := entries + more;
      }
      assert rows[..|rows|] == rows;
    }

    method DropStale(stale: set<string>)
      requires registry != null
      modifies this`toolIndex, registry
      ensures registry.dynamic == Less(old(registry.dynamic), stale) && toolIndex == Less(old(toolIndex), stale)
    {
      hide Less;
      ghost var index, tools := toolIndex, registry.dynamic;
      var left := stale;
      LessNothing(index, stale);
      LessNothing(tools, stale);
      while left != {}
        invariant left <= stale
        invariant registry.dynamic == Less(tools, stale - left) && toolIndex == Less(index, stale - left)
        decreases |left|
      {
        var name :| name in left;
        LessOneMore(index, stale, left, name);
        LessOneMore(tools, stale, left, name);
        left := left - {name};
        registry.UnregisterDynamic(name);
        toolIndex := toolIndex - {name};
      }
      assert stale - left == stale;
    }

    method RegisterAll(desired: Index, rows: seq<Connector>)
      requires registry != null && toolIndex.Keys <= desired.Keys
      modifies this`toolIndex, registry
      ensures registry.dynamic == Register(old(registry.dynamic), desired, rows, Caches(schemaCache, connections))
      ensures toolIndex == desired
    {
      hide Described, Register, Less;
      ghost var tools, index := registry.dynamic, toolIndex;
      var left := desired.Keys;
      RegisterNothing(tools, index, desired, rows, Caches(schemaCache, connections));
      while left != {}
        invariant left <= desired.Keys
        invariant registry.dynamic == Register(tools, Less(desired, left), rows, Caches(schemaCache, connections))
        invariant toolIndex == index + Less(desired, left)
        decreases |left|
      {
        var name :| name in left;
        RegisterOneMore(tools, index, desired, left, name, rows, Caches(schemaCache, connections));
        left := left - {name};
        registry.RegisterDynamic(Described(name, desired[name], rows, Caches(schemaCache, connections)));
        toolIndex := toolIndex[name := desired[name]];
      }
      RegisterEverything(index, desired);
    }
  }

  function Less<V>(m: map<string, V>, names: set<string>): map<string, V> {
    m - names
  }

  lemma LessNothing<V>(m: map<string, V>, stale: set<string>)
    ensures Less(m, stale - stale) == m
  {
  }

  lemma LessOneMore<V>(m: map<string, V>, stale: set<string>, left: set<string>, name: string)
    requires left <= stale && name in left
    ensures Less(m, stale - left) - {name} == Less(m, stale - (left - {name}))
  {
  }

  lemma RegisterEverything(index: Index, desired: Index)
    requires index.Keys <= desired.Keys
    ensures Less(desired, {}) == desired && index + desired == desired
  {
  }

  lemma RegisterNothing(tools: Tools, index: Index, desired: Index, rows: seq<Connector>, k: Caches)
    ensures Register(tools, Less(desired, desired.Keys), rows, k) == tools
    ensures index + Less(desired, desired.Keys) == index
  {
  }

  lemma RegisterOneMore(tools: Tools, index: Index, desired: Index, left: set<string>, name: string,
      rows: seq<Connector>, k: Caches)
    requires name in left && left <= desired.Keys
    ensures Described(name, desired[name], rows, k).name == name
    ensures Register(tools, Less(desired, left), rows, k)[name := Described(name, desired[name], rows, k)]
      == Register(tools, Less(desired, left - {name}), rows, k)
    ensures (index + Less(desired, left))[name := desired[name]] == index + Less(desired, left - {name})
  {
  }

  method AddApiTools(c: Connector, desired: Index, ghost before: seq<Entry>) returns (r: Index)
    requires desired == Collect(before)
    ensures r == Collect(before + ApiEntries(c, c.tools))
  {
    hide GlobalToolName, Collect;
    r := desired;
    assert before + [] == before;
    for i := 0 to |c.tools|
      invariant r == Collect(before + ApiEntries(c, c.tools[..i]))
    {
      assert c.tools[..i + 1][..i] == c.tools[..i];
      var t := c.tools[i];
      if t.enabled {
        CollectSnoc(before, ApiEntries(c, c.tools[..i]), EntryFor(c, t.name));
        r := r[GlobalToolName(c.id, t.name) := ResolvedTool(c.owner, c.id, c.ctype, t.name)];
      } else {
        assert ApiEntries(c, c.tools[..i]) + [] == ApiEntries(c, c.tools[..i]);
      }
    }
    assert c.tools[..|c.tools|] == c.tools;
  }

  method AddMcpTools(c: Connector, tools: seq<McpTool>, desired: Index, ghost before: seq<Entry>) returns (r: Index)
    requires desired == Collect(before)
    ensures r == Collect(before + McpEntries(c, tools))
  {
    hide GlobalToolName, Collect;
    r := desired;
    assert before + [] == before;
    for i := 0 to |tools|
      invariant r == Collect(before + McpEntries(c, tools[..i]))
    {
      assert tools[..i + 1][..i] == tools[..i];
      var t := tools[i];
      if ToolEnabled(c, t.name) {
        CollectSnoc(before, McpEntries(c, tools[..i]), EntryFor(c, t.name));
        r := r[GlobalToolName(c.id, t.name) := ResolvedTool(c.owner, c.id, c.ctype, t.name)];
      } else {
        assert McpEntries(c, tools[..i]) + [] == McpEntries(c, tools[..i]);
      }
    }
    assert tools[..|tools|] == tools;
  }

  lemma CollectSnoc(before: seq<Entry>, entries: seq<Entry>, e: Entry)
    ensures Collect(before + (entries + [e])) == Collect(before + entries)[e.name := e.tool]
  {
    var all := before + (entries + [e]);
    assert all[|all| - 1] == e && all[..|all| - 1] == before + entries;
  }
}
