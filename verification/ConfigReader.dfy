// The exporting half of the adapter: loops over table rows in whatever order they come,
// translating ids to names.
module ConfigReader {
  import opened Prelude
  import opened ConfigModel
  import opened ConfigExport

  // The database's foreign keys: a stored id always has a row.
  ghost predicate ForeignKeys(db: Tables) {
    && (forall k :: k in db.agents && db.agents[k].modelId.Some? ==> HasModelId(db, db.agents[k].modelId.value))
    && (forall c :: c in db.links ==> HasServerId(db, c.key))
    && (forall c :: c in db.relations ==> HasAgentId(db, c.key.source) && HasAgentId(db, c.key.target))
  }

  ghost predicate HasModelId(db: Tables, id: nat) { exists k :: k in db.models && db.models[k].id == id }

  ghost predicate HasServerId(db: Tables, id: nat) { exists k :: k in db.servers && db.servers[k].id == id }

  ghost predicate HasAgentId(db: Tables, id: nat) { exists k :: k in db.agents && db.agents[k].id == id }

  // A non-empty set of tool keys has one with the least sort order.
  lemma {:induction false} LeastTool(m: ChildTable<ToolKey, ToolData>, owner: nat, todo: set<ToolKey>)
    requires todo != {} && forall k :: k in todo ==> Child(owner, k) in m
    ensures exists k :: k in todo && Least(m, owner, todo, k)
    decreases |todo|
  {
    var k :| k in todo;
    var rest := todo - {k};
    if rest == {} {
      assert todo == {k};
      assert Least(m, owner, todo, k);
    } else {
      LeastTool(m, owner, rest);
      var k' :| k' in rest && Least(m, owner, rest, k');
      if m[Child(owner, k)].data.sortOrder <= m[Child(owner, k')].data.sortOrder {
        assert Least(m, owner, todo, k);
      } else {
        assert Least(m, owner, todo, k');
      }
    }
  }

  predicate Least(m: ChildTable<ToolKey, ToolData>, owner: nat, todo: set<ToolKey>, k: ToolKey) {
    Child(owner, k) in m &&
    forall k' :: k' in todo ==>
        Child(owner, k') in m && m[Child(owner, k)].data.sortOrder <= m[Child(owner, k')].data.sortOrder
  }

  predicate NotAfter(m: ChildTable<ToolKey, ToolData>, owner: nat, k: ToolKey, k': ToolKey) {
    Child(owner, k) in m && Child(owner, k') in m
    && m[Child(owner, k)].data.sortOrder <= m[Child(owner, k')].data.sortOrder
  }

  // The tool names of one agent, by sort_order.
  method ExportTools(m: ChildTable<ToolKey, ToolData>, owner: nat) returns (names: seq<string>)
    ensures ToolsListed(m, owner, names)
  {
    var all := OwnedKeys(m, owner);
    var todo := all;
    ghost var keys: seq<ToolKey> := [];
    names := [];
    while todo != {}
      invariant todo <= all && Distinct(keys) && (forall k :: k in keys <==> k in all - todo)
      invariant |names| == |keys| && forall i :: 0 <= i < |keys| ==>
            Child(owner, keys[i]) in m && names[i] == keys[i].toolName
      invariant forall i, j :: 0 <= i < j < |keys| ==>
                  m[Child(owner, keys[i])].data.sortOrder <= m[Child(owner, keys[j])].data.sortOrder
      invariant forall k, k' :: k in keys && k' in todo ==> NotAfter(m, owner, k, k')
      decreases |todo|
    {
      LeastTool(m, owner, todo);
      var k :| k in todo && Least(m, owner, todo, k);
      DistinctSnoc(keys, k);
      assert forall i :: 0 <= i < |keys| ==> NotAfter(m, owner, keys[i], k);
      names := names + [k.toolName];
      keys := keys + [k];
      todo := todo - {k};
    }
    assert ToolKeysListed(m, owner, keys, names);
  }

  method ExportLinks(db: Tables, tenant: string, owner: nat) returns (names: seq<string>)
    requires ForeignKeys(db)
    ensures LinksListed(db, tenant, owner, names)
  {
    var all := TenantKeys(db.links, owner, tenant);
    var todo := all;
    ghost var ids: seq<nat> := [];
    names := [];
    while todo != {}
      invariant todo <= all && Distinct(ids) && (forall k :: k in ids <==> k in all - todo)
      invariant |names| == |ids| && forall i :: 0 <= i < |ids| ==> NamesServer(db, ids[i], names[i])
      decreases |todo|
    {
      var id :| id in todo;
      assert Child(owner, id) in db.links;
      var k :| k in db.servers && db.servers[k].id == id;
      DistinctSnoc(ids, id);
      names := names + [k.name];
      ids := ids + [id];
      todo := todo - {id};
    }
    assert LinkIdsListed(db, tenant, owner, ids, names);
  }

  method ExportRelations(db: Tables, tenant: string, owner: nat) returns (items: seq<RelationItem>)
    requires ForeignKeys(db)
    ensures RelationsListed(db, tenant, owner, items)
  {
    var all := TenantKeys(db.relations, owner, tenant);
    var todo := all;
    ghost var arrows: seq<Arrow> := [];
    items := [];
    while todo != {}
      invariant todo <= all && Distinct(arrows) && (forall k :: k in arrows <==> k in all - todo)
      invariant |items| == |arrows|
      invariant forall i :: 0 <= i < |arrows| ==> NamesAgent(db, arrows[i].source, items[i].source)
      invariant forall i :: 0 <= i < |arrows| ==> NamesAgent(db, arrows[i].target, items[i].target)
      decreases |todo|
    {
      var a: Arrow :| a in todo;
      assert Child(owner, a) in db.relations;
      var k :| k in db.agents && db.agents[k].id == a.source;
      var k' :| k' in db.agents && db.agents[k'].id == a.target;
      DistinctSnoc(arrows, a);
      items := items + [RelationItem(k.name, k'.name)];
      arrows := arrows + [a];
      todo := todo - {a};
    }
    assert ArrowsListed(db, tenant, owner, arrows, items);
  }

  method ExportModels(db: Tables, tenant: string) returns (items: seq<ModelItem>)
    ensures ModelsExported(db, tenant, items)
  {
    var all := set k | k in db.models && k.tenant == tenant;
    var todo := all;
    items := [];
    while todo != {}
      invariant todo <= all
      invariant forall i, j :: 0 <= i < j < |items| ==> items[i].name != items[j].name
      invariant forall i :: 0 <= i < |items| ==>
                  Key(tenant, items[i].name) in all && Key(tenant, items[i].name) !in todo
                  && ModelItemOf(db, Key(tenant, items[i].name), items[i])
      invariant forall k :: k in all ==> k in todo || exists i :: 0 <= i < |items| && items[i].name == k.name
      decreases |todo|
    {
      var k :| k in todo;
      var row := db.models[k];
      ghost var before := items;
      items := items + [ModelItem(k.name, row.provider, row.baseURL, row.modelName, "", row.extraBody)];
      assert k == Key(tenant, k.name) && items[|before|].name == k.name;
      assert forall i :: 0 <= i < |before| ==> items[i] == before[i];
      todo := todo - {k};
    }
    assert forall k :: k in db.models && k.tenant == tenant ==> k in all;
  }

  method ExportServers(db: Tables, tenant: string) returns (items: seq<ServerItem>)
    ensures ServersExported(db, tenant, items)
  {
    var all := set k | k in db.servers && k.tenant == tenant;
    var todo := all;
    items := [];
    while todo != {}
      invariant todo <= all
      invariant forall i, j :: 0 <= i < j < |items| ==> items[i].name != items[j].name
      invariant forall i :: 0 <= i < |items| ==>
                  Key(tenant, items[i].name) in all && Key(tenant, items[i].name) !in todo
                  && ServerItemOf(db, Key(tenant, items[i].name), items[i])
      invariant forall k :: k in all ==> k in todo || exists i :: 0 <= i < |items| && items[i].name == k.name
      decreases |todo|
    {
      var k :| k in todo;
      var row := db.servers[k];
      ghost var before := items;
      var env := if row.envVars.Some? then Masked(row.envVars.value) else map[];
      items := items
          + [ServerItem(k.name, row.transport, row.command, ListOf(row.args), row.url, env,
              ListOf(row.forwardHeaders))];
      assert Masked(map[]) == map[];
      assert k == Key(tenant, k.name) && items[|before|].name == k.name;
      assert forall i :: 0 <= i < |before| ==> items[i] == before[i];
      todo := todo - {k};
    }
    assert forall k :: k in db.servers && k.tenant == tenant ==> k in all;
  }

  method ExportAgent(db: Tables, tenant: string, k: Key) returns (item: AgentItem)
    requires ForeignKeys(db) && k in db.agents
    ensures AgentItemOf(db, tenant, k, item)
  {
    var row := db.agents[k];
    var modelName := "";
    if row.modelId.Some? {
      var mk :| mk in db.models && db.models[mk].id == row.modelId.value;
      modelName := mk.name;
    }
    var tools := ExportTools(db.tools, row.id);
    var servers := ExportLinks(db, tenant, row.id);
    item := AgentItem(k.name, modelName, row.settings, ListOf(row.stopSequences), ListOf(row.confirmBefore), tools, [],
        servers);
  }

  // The items are those of the rows at the keys, each once.
  ghost predicate AgentsSoFar(db: Tables, tenant: string, items: seq<AgentItem>, keys: set<Key>) {
    && (forall i, j :: 0 <= i < j < |items| ==> items[i].name != items[j].name)
    && (forall i :: 0 <= i < |items| ==>
          && Key(tenant, items[i].name) in keys && Key(tenant, items[i].name) in db.agents
          && AgentItemOf(db, tenant, Key(tenant, items[i].name), items[i]))
    && (forall k :: k in keys ==> exists i :: 0 <= i < |items| && items[i].name == k.name)
  }

  lemma AgentAdded(db: Tables, tenant: string, items: seq<AgentItem>, keys: set<Key>, k: Key, item: AgentItem)
    requires AgentsSoFar(db, tenant, items, keys) && k in db.agents && k !in keys && k.tenant == tenant
    requires AgentItemOf(db, tenant, k, item)
    ensures AgentsSoFar(db, tenant, items + [item], keys + {k})
  {
    var more := items + [item];
    assert k == Key(tenant, k.name) && more[|items|].name == k.name;
    forall k' | k' in keys ensures exists i :: 0 <= i < |more| && more[i].name == k'.name {
      var i :| 0 <= i < |items| && items[i].name == k'.name;
      assert more[i].name == k'.name;
    }
  }

  method ExportAgents(db: Tables, tenant: string) returns (items: seq<AgentItem>)
    requires ForeignKeys(db)
    ensures AgentsExported(db, tenant, items)
  {
    var all := set k | k in db.agents && k.tenant == tenant;
    var todo := all;
    ghost var done: set<Key> := {};
    items := [];
    while todo != {}
      invariant AgentsSoFar(db, tenant, items, done)
      invariant forall k :: k in all <==> k in todo || k in done
      invariant forall k :: k in todo ==> k !in done
      decreases |todo|
    {
      var k :| k in todo;
      var item := ExportAgent(db, tenant, k);
      AgentAdded(db, tenant, items, done, k, item);
      items, todo, done := items + [item], todo - {k}, done + {k};
    }
    assert forall k :: k in db.agents && k.tenant == tenant ==> k in all;
  }

  // The entry agent is looked up among the tenant's own agents only.
  method ExportSchema(db: Tables, tenant: string, k: Key) returns (item: SchemaItem)
    requires ForeignKeys(db) && k in db.schemas
    ensures SchemaItemOf(db, tenant, k, item)
  {
    var row := db.schemas[k];
    var relations := ExportRelations(db, tenant, row.id);
    var entry := "";
    if row.entryAgentId.Some? {
      var owners := set a | a in db.agents && a.tenant == tenant && db.agents[a].id == row.entryAgentId.value;
      if owners != {} {
        var a :| a in owners;
        entry := a.name;
        assert a == Key(tenant, a.name);
      } else {
        assert forall a :: a in db.agents && a.tenant == tenant && db.agents[a].id == row.entryAgentId.value ==>
              a in owners;
      }
    }
    item := SchemaItem(k.name, row.description, row.chatEnabled, entry, relations);
  }

  // The items are those of the rows at the keys, each once.
  ghost predicate SchemasSoFar(db: Tables, tenant: string, items: seq<SchemaItem>, keys: set<Key>) {
    && (forall i, j :: 0 <= i < j < |items| ==> items[i].name != items[j].name)
    && (forall i :: 0 <= i < |items| ==>
          && Key(tenant, items[i].name) in keys && Key(tenant, items[i].name) in db.schemas
          && SchemaItemOf(db, tenant, Key(tenant, items[i].name), items[i]))
    && (forall k :: k in keys ==> exists i :: 0 <= i < |items| && items[i].name == k.name)
  }

  lemma SchemaAdded(db: Tables, tenant: string, items: seq<SchemaItem>, keys: set<Key>, k: Key, item: SchemaItem)
    requires SchemasSoFar(db, tenant, items, keys) && k in db.schemas && k !in keys && k.tenant == tenant
    requires SchemaItemOf(db, tenant, k, item)
    ensures SchemasSoFar(db, tenant, items + [item], keys + {k})
  {
    var more := items + [item];
    assert k == Key(tenant, k.name) && more[|items|].name == k.name;
    forall k' | k' in keys ensures exists i :: 0 <= i < |more| && more[i].name == k'.name {
      var i :| 0 <= i < |items| && items[i].name == k'.name;
      assert more[i].name == k'.name;
    }
  }

  method ExportSchemas(db: Tables, tenant: string) returns (items: seq<SchemaItem>)
    requires ForeignKeys(db)
    ensures SchemasExported(db, tenant, items)
  {
    var all := set k | k in db.schemas && k.tenant == tenant && !db.schemas[k].isSystem;
    var todo := all;
    ghost var done: set<Key> := {};
    items := [];
    while todo != {}
      invariant SchemasSoFar(db, tenant, items, done)
      invariant forall k :: k in all <==> k in todo || k in done
      invariant forall k :: k in todo ==> k !in done
      decreases |todo|
    {
      var k :| k in todo;
      var item := ExportSchema(db, tenant, k);
      SchemaAdded(db, tenant, items, done, k, item);
      items, todo, done := items + [item], todo - {k}, done + {k};
    }
    assert forall k :: k in db.schemas && k.tenant == tenant && !db.schemas[k].isSystem ==> k in all;
  }

  method ExportConfig(db: Tables, tenant: string) returns (doc: ConfigDoc)
    requires ForeignKeys(db)
    ensures IsExport(db, tenant, doc)
  {
    var agents := ExportAgents(db, tenant);
    var models := ExportModels(db, tenant);
    var servers := ExportServers(db, tenant);
    var schemas := ExportSchemas(db, tenant);
    doc := ConfigDoc(agents, models, servers, schemas);
  }
}
