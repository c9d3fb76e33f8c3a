// Moving a tenant: the export of a tenant whose references stay inside it is a closed document, so it
// imports into an empty tenant under conditions readable from the exported rows, and comes out the
// same.
module TenantMove {
  import opened Prelude
  import opened ConfigModel
  import opened ConfigImport
  import opened ChildTables
  import opened ConfigLaws
  import opened ConfigExport
  import opened SettledRows
  import opened RoundTrip
  import opened FreshImport
  import opened ReExport

  // ---- an export is closed and repeats nothing ----

  lemma ExportedAgent(db: Tables, t: string, doc: ConfigDoc, a: AgentItem)
    requires AgentsExported(db, t, doc.agents) && a in doc.agents
    ensures Key(t, a.name) in db.agents && AgentItemOf(db, t, Key(t, a.name), a)
  {
    var i :| 0 <= i < |doc.agents| && doc.agents[i] == a;
  }

  lemma ExportedSchema(db: Tables, t: string, doc: ConfigDoc, s: SchemaItem)
    requires SchemasExported(db, t, doc.schemas) && s in doc.schemas
    ensures Key(t, s.name) in db.schemas && !db.schemas[Key(t, s.name)].isSystem
    ensures SchemaItemOf(db, t, Key(t, s.name), s)
  {
    var i :| 0 <= i < |doc.schemas| && doc.schemas[i] == s;
  }

  lemma AgentExportClosed(db: Tables, t: string, doc: ConfigDoc, a: AgentItem)
    requires WellFormed(db) && NamesInside(db, t) && IsExport(db, t, doc) && a in doc.agents
    ensures a.modelName != "" ==> ModelNamed(doc, a.modelName)
    ensures forall n :: n in a.mcpServers ==> ServerNamed(doc, n)
    ensures Distinct(a.mcpServers)
  {
    ExportedAgent(db, t, doc, a);
    var k := Key(t, a.name);
    assert ModelInside(db, t, k) && LinkedInside(db, t, db.agents[k].id);
    ModelNameResolves(db, t, k, a);
    if a.modelName != "" {
      var j :| 0 <= j < |doc.models| && doc.models[j].name == a.modelName;
      assert doc.models[j] in doc.models;
    }
    LinksExportClosed(db, t, doc, db.agents[k].id, a.mcpServers);
  }

  lemma LinksExportClosed(db: Tables, t: string, doc: ConfigDoc, owner: nat, names: seq<string>)
    requires WellFormed(db) && LinkedInside(db, t, owner)
    requires ServersExported(db, t, doc.servers) && LinksListed(db, t, owner, names)
    ensures (forall n :: n in names ==> ServerNamed(doc, n)) && Distinct(names)
  {
    var ids :| LinkIdsListed(db, t, owner, ids, names);
    forall i | 0 <= i < |ids| ensures Key(t, names[i]) in db.servers && db.servers[Key(t, names[i])].id == ids[i] {
      assert ids[i] in TenantKeys(db.links, owner, t);
      assert Child(owner, ids[i]) in db.links;
      ServerNameResolves(db, t, ids[i], names[i]);
    }
    forall n | n in names ensures ServerNamed(doc, n) {
      var i :| 0 <= i < |names| && names[i] == n;
      var j :| 0 <= j < |doc.servers| && doc.servers[j].name == n;
      assert doc.servers[j] in doc.servers;
    }
  }

  lemma UniqueToolsDistinct(m: ChildTable<ToolKey, ToolData>, owner: nat, keys: seq<ToolKey>, names: seq<string>)
    requires ToolKeysListed(m, owner, keys, names) && UniqueToolNames(m, owner)
    ensures Distinct(names)
  {
    AllListed(m, owner, keys);
    forall i, j | 0 <= i < j < |names| ensures names[i] != names[j] {
      assert Child(owner, keys[i]) != Child(owner, keys[j]);
    }
  }

  lemma DistinctToolsUnique(m: ChildTable<ToolKey, ToolData>, owner: nat, keys: seq<ToolKey>, names: seq<string>)
    requires ToolKeysListed(m, owner, keys, names) && Distinct(names)
    ensures UniqueToolNames(m, owner)
  {
    AllListed(m, owner, keys);
    forall c, d | c in m && d in m && c.owner == owner && d.owner == owner && c.key.toolName == d.key.toolName
      ensures c == d
    {
      var i :| 0 <= i < |keys| && c == Child(owner, keys[i]);
      var j :| 0 <= j < |keys| && d == Child(owner, keys[j]);
      assert names[i] == names[j];
    }
  }

  lemma ToolsExportUnique(m: ChildTable<ToolKey, ToolData>, owner: nat, names: seq<string>)
    requires ToolsListed(m, owner, names)
    ensures Distinct(names) <==> UniqueToolNames(m, owner)
  {
    var keys: seq<ToolKey> :| ToolKeysListed(m, owner, keys, names);
    if UniqueToolNames(m, owner) { UniqueToolsDistinct(m, owner, keys, names); }
    if Distinct(names) { DistinctToolsUnique(m, owner, keys, names); }
  }

  lemma SchemaExportClosed(db: Tables, t: string, doc: ConfigDoc, s: SchemaItem)
    requires WellFormed(db) && RelationsInside(db, t) && IsExport(db, t, doc) && s in doc.schemas
    ensures s.entryAgent != "" ==> AgentNamed(doc, s.entryAgent)
    ensures forall r :: r in s.relations ==> AgentNamed(doc, r.source) && AgentNamed(doc, r.target)
    ensures Distinct(s.relations)
  {
    ExportedSchema(db, t, doc, s);
    var row := db.schemas[Key(t, s.name)];
    EntryResolves(db, t, row.entryAgentId, s.entryAgent);
    if s.entryAgent != "" { ExportedAgentNamed(db, t, doc, s.entryAgent); }
    RelationsExportClosed(db, t, doc, row.id, s.relations);
  }

  lemma ExportedAgentNamed(db: Tables, t: string, doc: ConfigDoc, n: string)
    requires AgentsExported(db, t, doc.agents) && Key(t, n) in db.agents
    ensures AgentNamed(doc, n)
  {
    assert Key(t, n).tenant == t;
    var j :| 0 <= j < |doc.agents| && doc.agents[j].name == n;
    assert doc.agents[j] in doc.agents;
  }

  lemma RelationsExportClosed(db: Tables, t: string, doc: ConfigDoc, owner: nat, items: seq<RelationItem>)
    requires WellFormed(db) && RelatedInside(db, t, owner) && AgentsExported(db, t, doc.agents)
    requires RelationsListed(db, t, owner, items)
    ensures (forall r :: r in items ==> AgentNamed(doc, r.source) && AgentNamed(doc, r.target)) && Distinct(items)
  {
    var arrows: seq<Arrow> :| ArrowsListed(db, t, owner, arrows, items);
    forall i | 0 <= i < |items|
      ensures Key(t, items[i].source) in db.agents && db.agents[Key(t, items[i].source)].id == arrows[i].source
      ensures Key(t, items[i].target) in db.agents && db.agents[Key(t, items[i].target)].id == arrows[i].target
    {
      assert arrows[i] in TenantKeys(db.relations, owner, t);
      assert Child(owner, arrows[i]) in db.relations;
      AgentNameResolves(db, t, arrows[i].source, items[i].source);
      AgentNameResolves(db, t, arrows[i].target, items[i].target);
    }
    forall r | r in items ensures AgentNamed(doc, r.source) && AgentNamed(doc, r.target) {
      var i :| 0 <= i < |items| && items[i] == r;
      ExportedAgentNamed(db, t, doc, r.source);
      ExportedAgentNamed(db, t, doc, r.target);
    }
    forall i, j | 0 <= i < j < |items| ensures items[i] != items[j] {
      assert arrows[i] != arrows[j];
    }
  }

  // A tenant that is closed as imports keep it is one of these.
  lemma ClosedIsInside(db: Tables, t: string)
    requires WellFormed(db) && Closed(db, t)
    ensures NamesInside(db, t) && EntriesInside(db, t)
  {
    forall k | k in db.agents && k.tenant == t ensures LinkedInside(db, t, db.agents[k].id) {
      assert SameTenant(db.links, db.agents[k].id, t);
    }
    forall k | k in db.schemas && k.tenant == t ensures RelatedInside(db, t, db.schemas[k].id) {
      assert SameTenant(db.relations, db.schemas[k].id, t);
    }
  }

  lemma ExportIsClosed(db: Tables, t: string, doc: ConfigDoc)
    requires WellFormed(db) && NamesInside(db, t) && IsExport(db, t, doc)
    ensures DocClosed(doc) && NoRepeatedRows(doc)
  {
    forall a | a in doc.agents
      ensures (a.modelName != "" ==> ModelNamed(doc, a.modelName)) && Distinct(a.mcpServers)
      ensures forall n :: n in a.mcpServers ==> ServerNamed(doc, n)
    {
      AgentExportClosed(db, t, doc, a);
    }
    forall s | s in doc.schemas
      ensures (s.entryAgent != "" ==> AgentNamed(doc, s.entryAgent)) && Distinct(s.relations)
      ensures forall r :: r in s.relations ==> AgentNamed(doc, r.source) && AgentNamed(doc, r.target)
    {
      SchemaExportClosed(db, t, doc, s);
    }
  }

  lemma ImportableAgents(db: Tables, t: string, doc: ConfigDoc)
    requires AgentsExported(db, t, doc.agents)
    ensures (forall a :: a in doc.agents ==> ValidBudgets(Defaults(a.settings)) && Distinct(a.tools))
       <==> (forall k :: k in db.agents && k.tenant == t ==>
               ValidBudgets(Defaults(db.agents[k].settings)) && UniqueToolNames(db.tools, db.agents[k].id))
  {
    forall a | a in doc.agents
      ensures Key(t, a.name) in db.agents && a.settings == db.agents[Key(t, a.name)].settings
      ensures Distinct(a.tools) <==> UniqueToolNames(db.tools, db.agents[Key(t, a.name)].id)
    {
      ExportedAgent(db, t, doc, a);
      ToolsExportUnique(db.tools, db.agents[Key(t, a.name)].id, a.tools);
    }
    forall k | k in db.agents && k.tenant == t ensures exists a :: a in doc.agents && Key(t, a.name) == k {
      var i :| 0 <= i < |doc.agents| && doc.agents[i].name == k.name;
      assert doc.agents[i] in doc.agents && Key(t, doc.agents[i].name) == k;
    }
  }

  lemma ImportableSchemas(db: Tables, t: string, doc: ConfigDoc)
    requires SchemasExported(db, t, doc.schemas)
    ensures (forall s :: s in doc.schemas ==> s.name != "")
       <==> (forall k :: k in db.schemas && k.tenant == t && !db.schemas[k].isSystem ==> k.name != "")
  {
    forall k | k in db.schemas && k.tenant == t && !db.schemas[k].isSystem
      ensures exists s :: s in doc.schemas && s.name == k.name
    {
      var i :| 0 <= i < |doc.schemas| && doc.schemas[i].name == k.name;
      assert doc.schemas[i] in doc.schemas;
    }
    forall s | s in doc.schemas ensures Key(t, s.name) in db.schemas && !db.schemas[Key(t, s.name)].isSystem {
      var i :| 0 <= i < |doc.schemas| && doc.schemas[i] == s;
    }
  }

  lemma ExportImportable(db: Tables, t: string, doc: ConfigDoc)
    requires IsExport(db, t, doc)
    ensures DocImportable(doc) <==> Importable(db, t)
  {
    ImportableAgents(db, t, doc);
    ImportableSchemas(db, t, doc);
  }

  lemma ExportedEnvsDropped(db: Tables, t: string, doc: ConfigDoc)
    requires ServersExported(db, t, doc.servers)
    ensures forall s :: s in Coerced(doc).servers ==> s.envVars == map[]
  {
    forall s | s in Coerced(doc).servers ensures s.envVars == map[] {
      var i :| 0 <= i < |doc.servers| && s == CoercedServer(doc.servers[i]);
      ExportedEnvDropped(db, t, doc.servers[i]);
    }
  }

  // The export of a tenant whose references stay inside it imports into an empty tenant (of this or
  // another database) exactly when the exported rows are importable and the guard admits all the
  // schemas; a reference never fails to resolve, and exporting the copy gives the same document with
  // defaults filled in and the env values, which an export does not carry, gone.
  lemma MoveTenant(src: Tables, t: string, doc: ConfigDoc, dst: Tables, u: string, g: Guard)
    requires WellFormed(src) && NamesInside(src, t) && IsExport(src, t, doc)
    requires WellFormed(dst) && NoRows(dst, u)
    ensures Import(dst, u, doc, g).Ok? <==> Importable(src, t) && Admits(g, |doc.schemas|)
    ensures Import(dst, u, doc, g).Ok? ==> IsExport(Import(dst, u, doc, g).value, u, Coerced(doc))
    ensures forall s :: s in Coerced(doc).servers ==> s.envVars == map[]
  {
    ExportIsClosed(src, t, doc);
    ExportImportable(src, t, doc);
    FreshImportSucceeds(dst, u, doc, g);
    ExportDistinct(src, t, doc);
    if Import(dst, u, doc, g).Ok? { ImportThenExport(dst, u, doc, g); }
    ExportedEnvsDropped(src, t, doc);
  }

  lemma ExportedEnvDropped(db: Tables, t: string, s: ServerItem)
    requires Key(t, s.name) in db.servers && ServerItemOf(db, Key(t, s.name), s)
    ensures CoercedServer(s).envVars == map[]
  {
    var row := db.servers[Key(t, s.name)];
    MaskedIsDropped(if row.envVars.Some? then row.envVars.value else map[]);
  }
}
