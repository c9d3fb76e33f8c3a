// What an export is: a document that lists the calling tenant's rows, each exactly once and in
// any order, with ids translated to names.  SQL fixes no row order, so neither does this.
module ConfigExport {
  import opened Prelude
  import opened ConfigModel

  // The keys of the rows an owner has in a child table.
  function OwnedKeys<K, V>(m: ChildTable<K, V>, owner: nat): set<K> {
    set c | c in m && c.owner == owner :: c.key
  }

  function TenantKeys<K, V>(m: ChildTable<K, V>, owner: nat, t: string): set<K> {
    set c | c in m && c.owner == owner && m[c].tenant == t :: c.key
  }

  ghost predicate Lists<K(!new)>(keys: seq<K>, all: set<K>) {
    Distinct(keys) && forall k :: k in keys <==> k in all
  }

  ghost predicate NamesModel(db: Tables, id: nat, name: string) {
    exists k :: k in db.models && k.name == name && db.models[k].id == id
  }

  ghost predicate NamesServer(db: Tables, id: nat, name: string) {
    exists k :: k in db.servers && k.name == name && db.servers[k].id == id
  }

  ghost predicate NamesAgent(db: Tables, id: nat, name: string) {
    exists k :: k in db.agents && k.name == name && db.agents[k].id == id
  }

  // Tools are listed by sort_order.
  ghost predicate ToolsListed(m: ChildTable<ToolKey, ToolData>, owner: nat, names: seq<string>) {
    exists keys: seq<ToolKey> :: ToolKeysListed(m, owner, keys, names)
  }

  ghost predicate ToolKeysListed(m: ChildTable<ToolKey, ToolData>, owner: nat, keys: seq<ToolKey>, names: seq<string>) {
    && Lists(keys, OwnedKeys(m, owner))
    && (forall i :: 0 <= i < |keys| ==> Child(owner, keys[i]) in m)
    && (forall i, j :: 0 <= i < j < |keys| ==>
          m[Child(owner, keys[i])].data.sortOrder <= m[Child(owner, keys[j])].data.sortOrder)
    && |names| == |keys|
    && forall i :: 0 <= i < |keys| ==> names[i] == keys[i].toolName
  }

  ghost predicate LinksListed(db: Tables, t: string, owner: nat, names: seq<string>) {
    exists ids: seq<nat> :: LinkIdsListed(db, t, owner, ids, names)
  }

  ghost predicate LinkIdsListed(db: Tables, t: string, owner: nat, ids: seq<nat>, names: seq<string>) {
    && Lists(ids, TenantKeys(db.links, owner, t))
    && |names| == |ids|
    && forall i :: 0 <= i < |ids| ==> NamesServer(db, ids[i], names[i])
  }

  ghost predicate RelationsListed(db: Tables, t: string, owner: nat, items: seq<RelationItem>) {
    exists arrows: seq<Arrow> :: ArrowsListed(db, t, owner, arrows, items)
  }

  ghost predicate ArrowsListed(db: Tables, t: string, owner: nat, arrows: seq<Arrow>, items: seq<RelationItem>) {
    && Lists(arrows, TenantKeys(db.relations, owner, t))
    && |items| == |arrows|
    && forall i :: 0 <= i < |arrows| ==>
         NamesAgent(db, arrows[i].source, items[i].source) && NamesAgent(db, arrows[i].target, items[i].target)
  }

  // ---- one row and its item ----

  ghost predicate ModelItemOf(db: Tables, k: Key, m: ModelItem)
    requires k in db.models
  {
    var row := db.models[k];
    m == ModelItem(k.name, row.provider, row.baseURL, row.modelName, "", row.extraBody)
  }

  ghost predicate ServerItemOf(db: Tables, k: Key, s: ServerItem)
    requires k in db.servers
  {
    var row := db.servers[k];
    s == ServerItem(k.name, row.transport, row.command, ListOf(row.args), row.url,
                    Masked(if row.envVars.Some? then row.envVars.value else map[]), ListOf(row.forwardHeaders))
  }

  ghost predicate ModelNameOf(db: Tables, modelId: Option<nat>, name: string) {
    match modelId
    case None => name == ""
    case Some(id) => NamesModel(db, id, name)
  }

  ghost predicate AgentItemOf(db: Tables, t: string, k: Key, a: AgentItem)
    requires k in db.agents
  {
    var row := db.agents[k];
    && a.name == k.name && a.settings == row.settings && a.canSpawn == []
    && a.stopSequences == ListOf(row.stopSequences) && a.confirmBefore == ListOf(row.confirmBefore)
    && ModelNameOf(db, row.modelId, a.modelName)
    && ToolsListed(db.tools, row.id, a.tools)
    && LinksListed(db, t, row.id, a.mcpServers)
  }

  // An entry agent outside the tenant has no name in the export.
  ghost predicate EntryNameOf(db: Tables, t: string, entry: Option<nat>, name: string) {
    match entry
    case None => name == ""
    case Some(id) =>
      if HasAgent(db, t, id) then Key(t, name) in db.agents && db.agents[Key(t, name)].id == id else name == ""
  }

  ghost predicate HasAgent(db: Tables, t: string, id: nat) {
    exists k :: k in db.agents && k.tenant == t && db.agents[k].id == id
  }

  ghost predicate SchemaItemOf(db: Tables, t: string, k: Key, s: SchemaItem)
    requires k in db.schemas
  {
    var row := db.schemas[k];
    && s.name == k.name && s.description == row.description && s.chatEnabled == row.chatEnabled
    && EntryNameOf(db, t, row.entryAgentId, s.entryAgent)
    && RelationsListed(db, t, row.id, s.relations)
  }

  // ---- sections ----

  ghost predicate ModelsExported(db: Tables, t: string, items: seq<ModelItem>) {
    && (forall i, j :: 0 <= i < j < |items| ==> items[i].name != items[j].name)
    && (forall i :: 0 <= i < |items| ==>
        Key(t, items[i].name) in db.models && ModelItemOf(db, Key(t, items[i].name), items[i]))
    && (forall k :: k in db.models && k.tenant == t ==> exists i :: 0 <= i < |items| && items[i].name == k.name)
  }

  ghost predicate ServersExported(db: Tables, t: string, items: seq<ServerItem>) {
    && (forall i, j :: 0 <= i < j < |items| ==> items[i].name != items[j].name)
    && (forall i :: 0 <= i < |items| ==>
        Key(t, items[i].name) in db.servers && ServerItemOf(db, Key(t, items[i].name), items[i]))
    && (forall k :: k in db.servers && k.tenant == t ==> exists i :: 0 <= i < |items| && items[i].name == k.name)
  }

  ghost predicate AgentsExported(db: Tables, t: string, items: seq<AgentItem>) {
    && (forall i, j :: 0 <= i < j < |items| ==> items[i].name != items[j].name)
    && (forall i :: 0 <= i < |items| ==>
        Key(t, items[i].name) in db.agents && AgentItemOf(db, t, Key(t, items[i].name), items[i]))
    && (forall k :: k in db.agents && k.tenant == t ==> exists i :: 0 <= i < |items| && items[i].name == k.name)
  }

  // System schemas never leave the database.
  ghost predicate SchemasExported(db: Tables, t: string, items: seq<SchemaItem>) {
    && (forall i, j :: 0 <= i < j < |items| ==> items[i].name != items[j].name)
    && (forall i :: 0 <= i < |items| ==>
          && Key(t, items[i].name) in db.schemas && !db.schemas[Key(t, items[i].name)].isSystem
          && SchemaItemOf(db, t, Key(t, items[i].name), items[i]))
    && (forall k :: k in db.schemas && k.tenant == t && !db.schemas[k].isSystem ==>
          exists i :: 0 <= i < |items| && items[i].name == k.name)
  }

  ghost predicate IsExport(db: Tables, t: string, doc: ConfigDoc) {
    && ModelsExported(db, t, doc.models)
    && ServersExported(db, t, doc.servers)
    && AgentsExported(db, t, doc.agents)
    && SchemasExported(db, t, doc.schemas)
  }

  // ---- conditions a caller can check before exporting ----

  // Every reference held by a row of tenant t leads to a row of tenant t.
  ghost predicate Closed(db: Tables, t: string) {
    && (forall k :: k in db.agents && k.tenant == t && db.agents[k].modelId.Some? ==>
        HasModel(db, t, db.agents[k].modelId.value))
    && (forall k :: k in db.schemas && k.tenant == t && db.schemas[k].entryAgentId.Some? ==>
        HasAgent(db, t, db.schemas[k].entryAgentId.value))
    && (forall c :: c in db.links && db.links[c].tenant == t ==> HasServer(db, t, c.key))
    && (forall c :: c in db.relations && db.relations[c].tenant == t ==>
        HasAgent(db, t, c.key.source) && HasAgent(db, t, c.key.target))
  }

  ghost predicate HasModel(db: Tables, t: string, id: nat) {
    exists k :: k in db.models && k.tenant == t && db.models[k].id == id
  }

  ghost predicate HasServer(db: Tables, t: string, id: nat) {
    exists k :: k in db.servers && k.tenant == t && db.servers[k].id == id
  }

  // ---- references that stay inside the tenant, row by row and table by table ----

  ghost predicate ModelInside(db: Tables, t: string, k: Key)
    requires k in db.agents
  {
    db.agents[k].modelId.Some? ==> HasModel(db, t, db.agents[k].modelId.value)
  }

  ghost predicate LinkedInside(db: Tables, t: string, owner: nat) {
    forall c :: c in db.links && c.owner == owner ==> HasServer(db, t, c.key)
  }

  ghost predicate EntryInside(db: Tables, t: string, k: Key)
    requires k in db.schemas
  {
    db.schemas[k].entryAgentId.Some? ==> HasAgent(db, t, db.schemas[k].entryAgentId.value)
  }

  ghost predicate RelatedInside(db: Tables, t: string, owner: nat) {
    forall c :: c in db.relations && c.owner == owner ==>
        HasAgent(db, t, c.key.source) && HasAgent(db, t, c.key.target)
  }

  ghost predicate ModelsInside(db: Tables, t: string) {
    forall k :: k in db.agents && k.tenant == t ==> ModelInside(db, t, k)
  }

  ghost predicate LinksInside(db: Tables, t: string) {
    forall k :: k in db.agents && k.tenant == t ==> LinkedInside(db, t, db.agents[k].id)
  }

  ghost predicate EntriesInside(db: Tables, t: string) {
    forall k :: k in db.schemas && k.tenant == t && !db.schemas[k].isSystem ==> EntryInside(db, t, k)
  }

  ghost predicate RelationsInside(db: Tables, t: string) {
    forall k :: k in db.schemas && k.tenant == t && !db.schemas[k].isSystem ==>
        RelatedInside(db, t, db.schemas[k].id)
  }

  // Every reference that an export names.
  ghost predicate NamesInside(db: Tables, t: string) {
    ModelsInside(db, t) && LinksInside(db, t) && RelationsInside(db, t)
  }

  // What an export needs to be importable anywhere: budgets in range once defaulted, no tool
  // name stored under two types, and no exported schema without a name.
  ghost predicate Importable(db: Tables, t: string) {
    && (forall k :: k in db.agents && k.tenant == t ==> ValidBudgets(Defaults(db.agents[k].settings)))
    && (forall k :: k in db.agents && k.tenant == t ==> UniqueToolNames(db.tools, db.agents[k].id))
    && (forall k :: k in db.schemas && k.tenant == t && !db.schemas[k].isSystem ==> k.name != "")
  }

  ghost predicate UniqueToolNames(m: ChildTable<ToolKey, ToolData>, owner: nat) {
    forall c, d :: c in m && d in m && c.owner == owner && d.owner == owner && c.key.toolName == d.key.toolName ==>
        c == d
  }

  // ---- normal form, table by table ----

  ghost predicate AgentsNormal(db: Tables, t: string) {
    forall k :: k in db.agents && k.tenant == t ==> AgentRowNormal(db, k)
  }

  // The agent's budgets are set, its lists are not stored empty, and its model has a name.
  ghost predicate AgentRowNormal(db: Tables, k: Key)
    requires k in db.agents
  {
    var row := db.agents[k];
    && Defaults(row.settings) == row.settings
    && row.stopSequences != Some([]) && row.confirmBefore != Some([])
    && (row.modelId.Some? ==> !NamesModel(db, row.modelId.value, ""))
  }

  // Every agent's tools are plain builtins numbered 0, 1, 2, ...
  ghost predicate ToolsNormal(db: Tables, t: string) {
    forall k :: k in db.agents && k.tenant == t ==> PlainTools(db.tools, db.agents[k].id)
  }

  ghost predicate PlainTools(m: ChildTable<ToolKey, ToolData>, owner: nat) {
    && (forall c :: c in m && c.owner == owner ==>
          c.key.toolType == BUILTIN && m[c].data.config.None? && m[c].data.sortOrder < |OwnedKeys(m, owner)|)
    && (forall c, d :: c in m && d in m && c.owner == owner && d.owner == owner && c != d ==>
          m[c].data.sortOrder != m[d].data.sortOrder)
  }

  // The entry agent of every exported schema has a name.
  ghost predicate SchemasNormal(db: Tables, t: string) {
    forall k :: k in db.schemas && k.tenant == t && !db.schemas[k].isSystem ==> EntryNamed(db, k)
  }

  ghost predicate EntryNamed(db: Tables, k: Key)
    requires k in db.schemas
  {
    db.schemas[k].entryAgentId.Some? ==> !NamesAgent(db, db.schemas[k].entryAgentId.value, "")
  }

  // The relations of every exported schema hold the settings that an import writes.
  ghost predicate RelationsNormal(db: Tables, t: string) {
    forall k :: k in db.schemas && k.tenant == t && !db.schemas[k].isSystem ==>
        PlainRelations(db.relations, db.schemas[k].id)
  }

  ghost predicate PlainRelations(m: ChildTable<Arrow, string>, owner: nat) {
    forall c :: c in m && c.owner == owner ==> m[c].data == EMPTY_JSON
  }

  // Normal form of a tenant: re-importing its export writes back exactly what is stored.
  ghost predicate Normal(db: Tables, t: string) {
    Importable(db, t) && AgentsNormal(db, t) && ToolsNormal(db, t) && SchemasNormal(db, t) && RelationsNormal(db, t)
  }
}
