// What an export shows and what it cannot show: databases that differ only in what is not exported,
// API keys and the values of environment variables among it, have the same exports.
module ExportView {
  import opened Prelude
  import opened ConfigModel
  import opened ConfigExport

  // A missing list and a stored empty one look the same.
  predicate SameList<T(==)>(a: Option<seq<T>>, b: Option<seq<T>>) {
    a == b || (a in {None, Some([])} && b in {None, Some([])})
  }

  // The names of the variables that are set.
  function VariablesOf(env: Option<map<string, string>>): set<string> {
    match env case None => {} case Some(m) => m.Keys
  }

  predicate SameModel(a: ModelRow, b: ModelRow) {
    a.id == b.id && a.provider == b.provider && a.baseURL == b.baseURL && a.modelName == b.modelName
    && a.extraBody == b.extraBody
  }

  predicate SameServer(a: ServerRow, b: ServerRow) {
    && a.id == b.id && a.transport == b.transport && a.command == b.command && a.url == b.url
    && SameList(a.args, b.args) && SameList(a.forwardHeaders, b.forwardHeaders)
    && VariablesOf(a.envVars) == VariablesOf(b.envVars)
  }

  predicate SameAgent(a: AgentRow, b: AgentRow) {
    && a.id == b.id && a.modelId == b.modelId && a.settings == b.settings
    && SameList(a.stopSequences, b.stopSequences) && SameList(a.confirmBefore, b.confirmBefore)
  }

  predicate SameSchema(a: SchemaRow, b: SchemaRow) {
    a.id == b.id && a.description == b.description && a.chatEnabled == b.chatEnabled
    && a.entryAgentId == b.entryAgentId && a.isSystem == b.isSystem
  }

  // The two databases agree in everything but API keys and the other columns of a model or server that
  // no document carries, the values of environment variables, the settings of tools and relations, and
  // the time of the last chat.
  ghost predicate LookAlike(a: Tables, b: Tables) {
    && a.models.Keys == b.models.Keys && (forall k :: k in a.models ==> SameModel(a.models[k], b.models[k]))
    && a.servers.Keys == b.servers.Keys && (forall k :: k in a.servers ==> SameServer(a.servers[k], b.servers[k]))
    && a.agents.Keys == b.agents.Keys && (forall k :: k in a.agents ==> SameAgent(a.agents[k], b.agents[k]))
    && a.schemas.Keys == b.schemas.Keys && (forall k :: k in a.schemas ==> SameSchema(a.schemas[k], b.schemas[k]))
    && a.tools.Keys == b.tools.Keys
    && (forall c :: c in a.tools ==> a.tools[c].data.sortOrder == b.tools[c].data.sortOrder)
    && a.links == b.links
    && a.relations.Keys == b.relations.Keys
    && (forall c :: c in a.relations ==> a.relations[c].tenant == b.relations[c].tenant)
  }

  lemma AlikeSymmetric(a: Tables, b: Tables)
    requires LookAlike(a, b)
    ensures LookAlike(b, a)
  {
  }

  lemma SameListShows<T>(a: Option<seq<T>>, b: Option<seq<T>>)
    requires SameList(a, b)
    ensures ListOf(a) == ListOf(b)
  {
  }

  lemma SameMask(a: Option<map<string, string>>, b: Option<map<string, string>>)
    requires VariablesOf(a) == VariablesOf(b)
    ensures Masked(if a.Some? then a.value else map[]) == Masked(if b.Some? then b.value else map[])
  {
    var x, y := if a.Some? then a.value else map[], if b.Some? then b.value else map[];
    assert x.Keys == VariablesOf(a) && y.Keys == VariablesOf(b);
    assert forall k :: k in x <==> k in y;
  }

  lemma ServersAlike(a: Tables, b: Tables, t: string, items: seq<ServerItem>)
    requires LookAlike(a, b) && ServersExported(a, t, items)
    ensures ServersExported(b, t, items)
  {
    forall i | 0 <= i < |items|
      ensures Key(t, items[i].name) in b.servers && ServerItemOf(b, Key(t, items[i].name), items[i])
    {
      var k := Key(t, items[i].name);
      assert k in a.servers.Keys && SameServer(a.servers[k], b.servers[k]);
      SameListShows(a.servers[k].args, b.servers[k].args);
      SameListShows(a.servers[k].forwardHeaders, b.servers[k].forwardHeaders);
      SameMask(a.servers[k].envVars, b.servers[k].envVars);
    }
    forall k | k in b.servers && k.tenant == t ensures exists i :: 0 <= i < |items| && items[i].name == k.name {
      assert k in a.servers.Keys;
    }
  }

  lemma ModelsAlike(a: Tables, b: Tables, t: string, items: seq<ModelItem>)
    requires LookAlike(a, b) && ModelsExported(a, t, items)
    ensures ModelsExported(b, t, items)
  {
    forall i | 0 <= i < |items|
      ensures Key(t, items[i].name) in b.models && ModelItemOf(b, Key(t, items[i].name), items[i])
    {
      assert Key(t, items[i].name) in a.models.Keys;
    }
    forall k | k in b.models && k.tenant == t ensures exists i :: 0 <= i < |items| && items[i].name == k.name {
      assert k in a.models.Keys;
    }
  }

  lemma NamesAlike(a: Tables, b: Tables, id: nat, name: string)
    requires LookAlike(a, b)
    ensures NamesModel(a, id, name) ==> NamesModel(b, id, name)
    ensures NamesServer(a, id, name) ==> NamesServer(b, id, name)
    ensures NamesAgent(a, id, name) ==> NamesAgent(b, id, name)
  {
    if NamesModel(a, id, name) {
      var k :| k in a.models && k.name == name && a.models[k].id == id;
      assert k in b.models && SameModel(a.models[k], b.models[k]);
    }
    if NamesServer(a, id, name) {
      var k :| k in a.servers && k.name == name && a.servers[k].id == id;
      assert k in b.servers && SameServer(a.servers[k], b.servers[k]);
    }
    if NamesAgent(a, id, name) {
      var k :| k in a.agents && k.name == name && a.agents[k].id == id;
      assert k in b.agents && SameAgent(a.agents[k], b.agents[k]);
    }
  }

  lemma ToolsAlike(a: Tables, b: Tables, owner: nat, names: seq<string>)
    requires LookAlike(a, b) && ToolsListed(a.tools, owner, names)
    ensures ToolsListed(b.tools, owner, names)
  {
    var keys :| ToolKeysListed(a.tools, owner, keys, names);
    assert OwnedKeys(a.tools, owner) == OwnedKeys(b.tools, owner) by {
      forall c ensures c in a.tools <==> c in b.tools { assert c in a.tools <==> c in a.tools.Keys; }
    }
    assert forall c :: c in a.tools ==> c in b.tools by { assert forall c :: c in a.tools ==> c in a.tools.Keys; }
    assert ToolKeysListed(b.tools, owner, keys, names);
  }

  lemma LinksAlike(a: Tables, b: Tables, t: string, owner: nat, names: seq<string>)
    requires LookAlike(a, b) && LinksListed(a, t, owner, names)
    ensures LinksListed(b, t, owner, names)
  {
    var ids :| LinkIdsListed(a, t, owner, ids, names);
    forall i | 0 <= i < |ids| ensures NamesServer(b, ids[i], names[i]) { NamesAlike(a, b, ids[i], names[i]); }
    assert LinkIdsListed(b, t, owner, ids, names);
  }

  lemma AgentAlike(a: Tables, b: Tables, t: string, k: Key, x: AgentItem)
    requires LookAlike(a, b) && k in a.agents && AgentItemOf(a, t, k, x)
    ensures k in b.agents && AgentItemOf(b, t, k, x)
  {
    assert k in a.agents.Keys && SameAgent(a.agents[k], b.agents[k]);
    var row := a.agents[k];
    SameListShows(row.stopSequences, b.agents[k].stopSequences);
    SameListShows(row.confirmBefore, b.agents[k].confirmBefore);
    if row.modelId.Some? { NamesAlike(a, b, row.modelId.value, x.modelName); }
    ToolsAlike(a, b, row.id, x.tools);
    LinksAlike(a, b, t, row.id, x.mcpServers);
  }

  lemma AgentsAlike(a: Tables, b: Tables, t: string, items: seq<AgentItem>)
    requires LookAlike(a, b) && AgentsExported(a, t, items)
    ensures AgentsExported(b, t, items)
  {
    forall i | 0 <= i < |items|
      ensures Key(t, items[i].name) in b.agents && AgentItemOf(b, t, Key(t, items[i].name), items[i])
    {
      AgentAlike(a, b, t, Key(t, items[i].name), items[i]);
    }
    forall k | k in b.agents && k.tenant == t ensures exists i :: 0 <= i < |items| && items[i].name == k.name {
      assert k in a.agents.Keys;
    }
  }

  lemma EntryAlike(a: Tables, b: Tables, t: string, entry: Option<nat>, name: string)
    requires LookAlike(a, b) && EntryNameOf(a, t, entry, name)
    ensures EntryNameOf(b, t, entry, name)
  {
    if entry.Some? && HasAgent(a, t, entry.value) {
      var k := Key(t, name);
      assert k in a.agents.Keys && SameAgent(a.agents[k], b.agents[k]);
    }
  }

  lemma RelationsAlike(a: Tables, b: Tables, t: string, owner: nat, items: seq<RelationItem>)
    requires LookAlike(a, b) && RelationsListed(a, t, owner, items)
    ensures RelationsListed(b, t, owner, items)
  {
    var arrows: seq<Arrow> :| ArrowsListed(a, t, owner, arrows, items);
    assert TenantKeys(a.relations, owner, t) == TenantKeys(b.relations, owner, t) by {
      forall c ensures c in a.relations <==> c in b.relations { assert c in a.relations <==> c in a.relations.Keys; }
    }
    forall i | 0 <= i < |arrows|
      ensures NamesAgent(b, arrows[i].source, items[i].source) && NamesAgent(b, arrows[i].target, items[i].target)
    {
      NamesAlike(a, b, arrows[i].source, items[i].source);
      NamesAlike(a, b, arrows[i].target, items[i].target);
    }
    assert ArrowsListed(b, t, owner, arrows, items);
  }

  lemma SchemasAlike(a: Tables, b: Tables, t: string, items: seq<SchemaItem>)
    requires LookAlike(a, b) && SchemasExported(a, t, items)
    ensures SchemasExported(b, t, items)
  {
    forall i | 0 <= i < |items|
      ensures Key(t, items[i].name) in b.schemas && !b.schemas[Key(t, items[i].name)].isSystem
      ensures SchemaItemOf(b, t, Key(t, items[i].name), items[i])
    {
      var k := Key(t, items[i].name);
      assert k in a.schemas.Keys && SameSchema(a.schemas[k], b.schemas[k]);
      EntryAlike(a, b, t, a.schemas[k].entryAgentId, items[i].entryAgent);
      RelationsAlike(a, b, t, a.schemas[k].id, items[i].relations);
    }
    forall k | k in b.schemas && k.tenant == t && !b.schemas[k].isSystem
      ensures exists i :: 0 <= i < |items| && items[i].name == k.name
    {
      assert k in a.schemas.Keys && SameSchema(a.schemas[k], b.schemas[k]);
    }
  }

  lemma ExportCarriesOver(a: Tables, b: Tables, t: string, doc: ConfigDoc)
    requires LookAlike(a, b) && IsExport(a, t, doc)
    ensures IsExport(b, t, doc)
  {
    ModelsAlike(a, b, t, doc.models);
    ServersAlike(a, b, t, doc.servers);
    AgentsAlike(a, b, t, doc.agents);
    SchemasAlike(a, b, t, doc.schemas);
  }

  // Nothing can be learnt from an export about what the two databases differ in.
  lemma ExportTellsNothing(a: Tables, b: Tables, t: string, doc: ConfigDoc)
    requires LookAlike(a, b)
    ensures IsExport(a, t, doc) <==> IsExport(b, t, doc)
  {
    AlikeSymmetric(a, b);
    if IsExport(a, t, doc) { ExportCarriesOver(a, b, t, doc); }
    if IsExport(b, t, doc) { ExportCarriesOver(b, a, t, doc); }
  }

  // What it shows of the secrets: no API key, and of every variable the placeholder with its name.
  lemma ExportShowsPlaceholders(db: Tables, t: string, doc: ConfigDoc)
    requires IsExport(db, t, doc)
    ensures forall m :: m in doc.models ==> m.apiKey == ""
    ensures forall s :: s in doc.servers ==>
              && Key(t, s.name) in db.servers
              && s.envVars.Keys == VariablesOf(db.servers[Key(t, s.name)].envVars)
              && forall v :: v in s.envVars ==> s.envVars[v] == "${" + v + "}"
  {
    forall m | m in doc.models ensures m.apiKey == "" { var i :| 0 <= i < |doc.models| && doc.models[i] == m; }
    forall s | s in doc.servers
      ensures Key(t, s.name) in db.servers
      ensures s.envVars.Keys == VariablesOf(db.servers[Key(t, s.name)].envVars)
      ensures forall v :: v in s.envVars ==> s.envVars[v] == "${" + v + "}"
    {
      var i :| 0 <= i < |doc.servers| && doc.servers[i] == s;
      assert ServerItemOf(db, Key(t, s.name), s);
    }
  }
}
