// Exporting what a document was imported into gives that document back, up to the importer's
// own coercions.  An export is such a document, so a tenant can be moved and comes out the same.
module ReExport {
  import opened Prelude
  import opened ConfigModel
  import opened ConfigImport
  import opened ChildTables
  import opened Writes
  import opened ConfigLaws
  import opened ImportTheorems
  import opened SlotOutcomes
  import opened ConfigExport
  import opened RoundTrip
  import opened FreshImport

  // ---- what the importer changes in a document ----

  // API keys are not read, placeholder env values are dropped and the rest comes out masked.
  function CoercedServer(s: ServerItem): ServerItem {
    s.(envVars := Masked(WithoutPlaceholders(s.envVars)))
  }

  // Zero budgets and empty modes become the defaults; the legacy can_spawn list is not read.
  function CoercedAgent(a: AgentItem): AgentItem {
    a.(settings := Defaults(a.settings), canSpawn := [])
  }

  function Coerced(doc: ConfigDoc): ConfigDoc {
    ConfigDoc(seq(|doc.agents|, i requires 0 <= i < |doc.agents| => CoercedAgent(doc.agents[i])),
              seq(|doc.models|, i requires 0 <= i < |doc.models| => doc.models[i].(apiKey := "")),
              seq(|doc.servers|, i requires 0 <= i < |doc.servers| => CoercedServer(doc.servers[i])),
              doc.schemas)
  }

  // ---- one item, imported into an empty slot ----

  lemma ModelReexported(db: Tables, f: Tables, t: string, m: ModelItem)
    requires Written(db, f, t, UpsertModel(m)) && Key(t, m.name) !in db.models
    ensures Key(t, m.name) in f.models && ModelItemOf(f, Key(t, m.name), m.(apiKey := ""))
  {
    assert Look(db, ModelSlot(Key(t, m.name))) == Absent;
  }

  lemma ServerReexported(db: Tables, f: Tables, t: string, s: ServerItem)
    requires Written(db, f, t, UpsertServer(s)) && Key(t, s.name) !in db.servers
    ensures Key(t, s.name) in f.servers && ServerItemOf(f, Key(t, s.name), CoercedServer(s))
  {
    assert Look(db, ServerSlot(Key(t, s.name))) == Absent;
    var row := f.servers[Key(t, s.name)];
    assert ListOf(row.args) == s.args && ListOf(row.forwardHeaders) == s.forwardHeaders;
  }

  lemma GroupKeys<K, V>(m: ChildTable<K, V>, owner: nat)
    ensures OwnedKeys(m, owner) == OwnedKeys(Group(m, owner), owner)
  {
  }

  lemma ToolsReexported(m: ChildTable<ToolKey, ToolData>, owner: nat, t: string, names: seq<string>)
    requires Insertable(names, ToolRows()) && Group(m, owner) == Rows(owner, t, names, ToolRows())
    ensures ToolsListed(m, owner, names)
  {
    var keys := seq(|names|, i requires 0 <= i < |names| => ToolKey(BUILTIN, names[i]));
    RowsAt(owner, t, names, ToolRows());
    GroupKeys(m, owner);
    forall i | 0 <= i < |names|
      ensures Child(owner, keys[i]) in m && m[Child(owner, keys[i])].data == ToolData(None, i)
    {
      assert ToolRows()(names[i], i).value == (keys[i], ToolData(None, i));
      assert Child(owner, keys[i]) in Group(m, owner);
    }
    forall i, j | 0 <= i < j < |keys| ensures keys[i] != keys[j] {
      assert ToolRows()(names[i], i).value.0 != ToolRows()(names[j], j).value.0;
    }
    forall k ensures k in keys <==> k in OwnedKeys(m, owner) {
      if k in keys {
        var i :| 0 <= i < |keys| && keys[i] == k;
        assert Child(owner, k) in m;
      }
      if k in OwnedKeys(m, owner) {
        assert Child(owner, k) in Group(m, owner);
        var j :| 0 <= j < |names| && Child(owner, k) == Child(owner, ToolRows()(names[j], j).value.0);
        assert keys[j] == k;
      }
    }
    assert ToolKeysListed(m, owner, keys, names);
  }

  // The keys that items resolve to list exactly the owner's rows.
  lemma ResolvedKeysList<I, K(!new), V>(m: ChildTable<K, V>, owner: nat, t: string, items: seq<I>,
                                        resolve: (I, nat) -> Option<(K, V)>, keys: seq<K>)
    requires Insertable(items, resolve) && Group(m, owner) == Rows(owner, t, items, resolve)
    requires |keys| == |items| && forall i :: 0 <= i < |keys| ==> keys[i] == resolve(items[i], i).value.0
    ensures Lists(keys, TenantKeys(m, owner, t))
  {
    RowsAt(owner, t, items, resolve);
    forall k ensures k in keys <==> k in TenantKeys(m, owner, t) {
      if k in keys {
        var i :| 0 <= i < |keys| && keys[i] == k;
        assert Child(owner, k) in Rows(owner, t, items, resolve);
        assert Child(owner, k) in Group(m, owner);
      }
      if k in TenantKeys(m, owner, t) {
        assert Child(owner, k) in Group(m, owner);
        var j :| 0 <= j < |items| && Child(owner, k) == Child(owner, resolve(items[j], j).value.0);
        assert keys[j] == k;
      }
    }
  }

  lemma LinksReexported(f: Tables, t: string, owner: nat, names: seq<string>)
    requires Insertable(names, LinkRows(f.servers, t))
    requires Group(f.links, owner) == Rows(owner, t, names, LinkRows(f.servers, t))
    ensures LinksListed(f, t, owner, names)
  {
    var r := LinkRows(f.servers, t);
    var ids := seq(|names|, i requires 0 <= i < |names| => r(names[i], i).value.0);
    ResolvedKeysList(f.links, owner, t, names, r, ids);
    forall i | 0 <= i < |ids| ensures NamesServer(f, ids[i], names[i]) {
      assert r(names[i], i).Some?;
      assert Key(t, names[i]) in f.servers;
    }
    assert LinkIdsListed(f, t, owner, ids, names);
  }

  lemma RelationsReexported(f: Tables, t: string, owner: nat, items: seq<RelationItem>)
    requires Insertable(items, RelationRows(f.agents, t))
    requires Group(f.relations, owner) == Rows(owner, t, items, RelationRows(f.agents, t))
    ensures RelationsListed(f, t, owner, items)
  {
    var r := RelationRows(f.agents, t);
    var arrows := seq(|items|, i requires 0 <= i < |items| => r(items[i], i).value.0);
    ResolvedKeysList(f.relations, owner, t, items, r, arrows);
    forall i | 0 <= i < |arrows|
      ensures NamesAgent(f, arrows[i].source, items[i].source) && NamesAgent(f, arrows[i].target, items[i].target)
    {
      assert r(items[i], i).Some?;
      assert Key(t, items[i].source) in f.agents && Key(t, items[i].target) in f.agents;
    }
    assert ArrowsListed(f, t, owner, arrows, items);
  }

  lemma AgentCellsWritten(db: Tables, f: Tables, t: string, a: AgentItem)
    requires Written(db, f, t, SyncTools(a)) && Written(db, f, t, SyncLinks(a))
    ensures Key(t, a.name) in f.agents
    ensures Insertable(a.tools, ToolRows()) && Insertable(a.mcpServers, LinkRows(f.servers, t))
    ensures var id := f.agents[Key(t, a.name)].id;
            && Group(f.tools, id) == Rows(id, t, a.tools, ToolRows())
            && Group(f.links, id) == Rows(id, t, a.mcpServers, LinkRows(f.servers, t))
  {
    var id := f.agents[Key(t, a.name)].id;
    assert Look(f, ToolSlot(id)) == ToolCell(Rows(id, t, a.tools, ToolRows()));
    assert Look(f, LinkSlot(id)) == LinkCell(Rows(id, t, a.mcpServers, LinkRows(f.servers, t)));
  }

  lemma AgentListsReexported(db: Tables, f: Tables, t: string, a: AgentItem)
    requires Written(db, f, t, SyncTools(a)) && Written(db, f, t, SyncLinks(a))
    ensures Key(t, a.name) in f.agents
    ensures var id := f.agents[Key(t, a.name)].id;
            ToolsListed(f.tools, id, a.tools) && LinksListed(f, t, id, a.mcpServers)
  {
    AgentCellsWritten(db, f, t, a);
    var id := f.agents[Key(t, a.name)].id;
    ToolsReexported(f.tools, id, t, a.tools);
    LinksReexported(f, t, id, a.mcpServers);
  }

  lemma AgentReexported(db: Tables, f: Tables, t: string, a: AgentItem)
    requires Key(t, a.name) !in db.agents
    requires Written(db, f, t, UpsertAgent(a)) && Written(db, f, t, SyncTools(a)) && Written(db, f, t, SyncLinks(a))
    ensures Key(t, a.name) in f.agents && AgentItemOf(f, t, Key(t, a.name), CoercedAgent(a))
  {
    AgentRowReexported(db, f, t, a);
    AgentListsReexported(db, f, t, a);
  }

  lemma AgentRowReexported(db: Tables, f: Tables, t: string, a: AgentItem)
    requires Key(t, a.name) !in db.agents && Written(db, f, t, UpsertAgent(a))
    ensures Key(t, a.name) in f.agents
    ensures var row := f.agents[Key(t, a.name)];
            && row.settings == Defaults(a.settings)
            && ListOf(row.stopSequences) == a.stopSequences && ListOf(row.confirmBefore) == a.confirmBefore
            && ModelNameOf(f, row.modelId, a.modelName)
  {
    assert Look(db, AgentSlot(Key(t, a.name))) == Absent;
    if a.modelName != "" { assert Key(t, a.modelName) in f.models; }
  }

  lemma SchemaReexported(db: Tables, f: Tables, t: string, s: SchemaItem)
    requires Key(t, s.name) !in db.schemas
    requires Written(db, f, t, UpsertSchema(s)) && Written(db, f, t, ReplaceRelations(s))
    ensures Key(t, s.name) in f.schemas && !f.schemas[Key(t, s.name)].isSystem && SchemaItemOf(f, t, Key(t, s.name), s)
  {
    var k := Key(t, s.name);
    SchemaRowReexported(db, f, t, s);
    var id := f.schemas[k].id;
    assert Look(f, RelationSlot(id)) == RelationCell(Rows(id, t, s.relations, RelationRows(f.agents, t)));
    RelationsReexported(f, t, id, s.relations);
  }

  lemma SchemaRowReexported(db: Tables, f: Tables, t: string, s: SchemaItem)
    requires Key(t, s.name) !in db.schemas && Written(db, f, t, UpsertSchema(s))
    ensures Key(t, s.name) in f.schemas
    ensures var row := f.schemas[Key(t, s.name)];
            && !row.isSystem && row.description == s.description && row.chatEnabled == s.chatEnabled
            && EntryNameOf(f, t, row.entryAgentId, s.entryAgent)
  {
    assert Look(db, SchemaSlot(Key(t, s.name))) == Absent;
    if s.entryAgent != "" {
      assert Key(t, s.entryAgent) in f.agents;
      assert HasAgent(f, t, f.agents[Key(t, s.entryAgent)].id);
    }
  }

  // ---- nothing else appears in the tenant ----

  // A row of tenant t that no item names was there before.
  lemma OnlyNamed(db: Tables, f: Tables, t: string, doc: ConfigDoc, k: Key)
    requires k.tenant == t && forall op :: op in AllOps(doc) ==> Valid(f, t, op)
    requires forall s :: Untargeted(f, t, AllOps(doc), s) ==> Look(f, s) == Look(db, s)
    ensures !ModelNamed(doc, k.name) ==> Look(f, ModelSlot(k)) == Look(db, ModelSlot(k))
    ensures !ServerNamed(doc, k.name) ==> Look(f, ServerSlot(k)) == Look(db, ServerSlot(k))
    ensures !AgentNamed(doc, k.name) ==> Look(f, AgentSlot(k)) == Look(db, AgentSlot(k))
    ensures (forall s :: s in doc.schemas ==> s.name != k.name) ==> Look(f, SchemaSlot(k)) == Look(db, SchemaSlot(k))
  {
    forall op | op in AllOps(doc)
      ensures Target(Resolve(f, t, op)) == ModelSlot(k) ==> ModelNamed(doc, k.name)
      ensures Target(Resolve(f, t, op)) == ServerSlot(k) ==> ServerNamed(doc, k.name)
      ensures Target(Resolve(f, t, op)) == AgentSlot(k) ==> AgentNamed(doc, k.name)
      ensures Target(Resolve(f, t, op)) == SchemaSlot(k) ==> exists s :: s in doc.schemas && s.name == k.name
    {
      AllOpsMembers(doc, op);
    }
    assert !ModelNamed(doc, k.name) ==> Untargeted(f, t, AllOps(doc), ModelSlot(k));
    assert !ServerNamed(doc, k.name) ==> Untargeted(f, t, AllOps(doc), ServerSlot(k));
    assert !AgentNamed(doc, k.name) ==> Untargeted(f, t, AllOps(doc), AgentSlot(k));
    assert (forall s :: s in doc.schemas ==> s.name != k.name) ==> Untargeted(f, t, AllOps(doc), SchemaSlot(k));
  }

  // The state after a successful import into an empty tenant.
  ghost predicate Imported(db: Tables, f: Tables, t: string, doc: ConfigDoc) {
    && NoRows(db, t) && DistinctSections(doc)
    && (forall op :: op in AllOps(doc) ==> Written(db, f, t, op))
    && (forall k: Key :: k.tenant == t ==>
          && (k in f.models ==> ModelNamed(doc, k.name))
          && (k in f.servers ==> ServerNamed(doc, k.name))
          && (k in f.agents ==> AgentNamed(doc, k.name))
          && (k in f.schemas ==> exists s :: s in doc.schemas && s.name == k.name))
  }

  lemma ImportGives(db: Tables, t: string, doc: ConfigDoc, g: Guard)
    requires WellFormed(db) && NoRows(db, t) && DistinctSections(doc) && Import(db, t, doc, g).Ok?
    ensures Imported(db, Import(db, t, doc, g).value, t, doc)
  {
    ImportIsFold(db, t, doc, g);
    AllOpsDistinct(doc);
    DistinctRun(db, t, AllOps(doc));
    RunGives(db, Import(db, t, doc, g).value, t, doc);
  }

  lemma RunGives(db: Tables, f: Tables, t: string, doc: ConfigDoc)
    requires NoRows(db, t) && DistinctSections(doc)
    requires forall op :: op in AllOps(doc) ==> Written(db, f, t, op) && Valid(f, t, op)
    requires forall s :: Untargeted(f, t, AllOps(doc), s) ==> Look(f, s) == Look(db, s)
    ensures Imported(db, f, t, doc)
  {
    forall k: Key | k.tenant == t
      ensures k in f.models ==> ModelNamed(doc, k.name)
      ensures k in f.servers ==> ServerNamed(doc, k.name)
      ensures k in f.agents ==> AgentNamed(doc, k.name)
      ensures k in f.schemas ==> exists s :: s in doc.schemas && s.name == k.name
    {
      OnlyNamed(db, f, t, doc, k);
      NothingThere(db, k);
    }
  }

  lemma NothingThere(db: Tables, k: Key)
    requires NoRows(db, k.tenant)
    ensures Look(db, ModelSlot(k)) == Look(db, ServerSlot(k)) == Look(db, AgentSlot(k)) == Look(db, SchemaSlot(k))
          == Absent
  {
  }

  lemma ModelsReexported(db: Tables, f: Tables, t: string, doc: ConfigDoc)
    requires Imported(db, f, t, doc)
    ensures ModelsExported(f, t, Coerced(doc).models) && ServersExported(f, t, Coerced(doc).servers)
  {
    OpsWithin(doc);
    var ms, ss := Coerced(doc).models, Coerced(doc).servers;
    forall i | 0 <= i < |ms| ensures Key(t, ms[i].name) in f.models && ModelItemOf(f, Key(t, ms[i].name), ms[i]) {
      ModelReexported(db, f, t, doc.models[i]);
    }
    forall i | 0 <= i < |ss| ensures Key(t, ss[i].name) in f.servers && ServerItemOf(f, Key(t, ss[i].name), ss[i]) {
      ServerReexported(db, f, t, doc.servers[i]);
    }
    forall k | k in f.models && k.tenant == t ensures exists i :: 0 <= i < |ms| && ms[i].name == k.name {
      var i :| 0 <= i < |doc.models| && doc.models[i].name == k.name;
      assert ms[i].name == k.name;
    }
    forall k | k in f.servers && k.tenant == t ensures exists i :: 0 <= i < |ss| && ss[i].name == k.name {
      var i :| 0 <= i < |doc.servers| && doc.servers[i].name == k.name;
      assert ss[i].name == k.name;
    }
  }

  lemma AgentsReexported(db: Tables, f: Tables, t: string, doc: ConfigDoc)
    requires Imported(db, f, t, doc)
    ensures AgentsExported(f, t, Coerced(doc).agents)
  {
    OpsWithin(doc);
    var xs := Coerced(doc).agents;
    forall i | 0 <= i < |xs| ensures Key(t, xs[i].name) in f.agents && AgentItemOf(f, t, Key(t, xs[i].name), xs[i]) {
      assert doc.agents[i] in doc.agents;
      AgentReexported(db, f, t, doc.agents[i]);
    }
    forall k | k in f.agents && k.tenant == t ensures exists i :: 0 <= i < |xs| && xs[i].name == k.name {
      var i :| 0 <= i < |doc.agents| && doc.agents[i].name == k.name;
      assert xs[i].name == k.name;
    }
  }

  lemma NewSchemaReexported(db: Tables, f: Tables, t: string, doc: ConfigDoc, s: SchemaItem)
    requires Imported(db, f, t, doc) && s in doc.schemas
    ensures Key(t, s.name) in f.schemas && !f.schemas[Key(t, s.name)].isSystem && SchemaItemOf(f, t, Key(t, s.name), s)
  {
    OpsWithin(doc);
    SchemaReexported(db, f, t, s);
  }

  lemma SchemasReexported(db: Tables, f: Tables, t: string, doc: ConfigDoc)
    requires Imported(db, f, t, doc)
    ensures SchemasExported(f, t, doc.schemas)
  {
    var xs := doc.schemas;
    forall i | 0 <= i < |xs|
      ensures Key(t, xs[i].name) in f.schemas && !f.schemas[Key(t, xs[i].name)].isSystem
      ensures SchemaItemOf(f, t, Key(t, xs[i].name), xs[i])
    {
      NewSchemaReexported(db, f, t, doc, xs[i]);
    }
    forall k | k in f.schemas && k.tenant == t ensures exists i :: 0 <= i < |xs| && xs[i].name == k.name {
      var s :| s in doc.schemas && s.name == k.name;
      var i :| 0 <= i < |xs| && xs[i] == s;
      assert xs[i].name == k.name;
    }
  }

  // Exporting the result of an import into an empty tenant gives the imported document back,
  // up to the importer's coercions.
  lemma ImportThenExport(db: Tables, t: string, doc: ConfigDoc, g: Guard)
    requires WellFormed(db) && NoRows(db, t) && DistinctSections(doc) && Import(db, t, doc, g).Ok?
    ensures IsExport(Import(db, t, doc, g).value, t, Coerced(doc))
  {
    ImportGives(db, t, doc, g);
    var f := Import(db, t, doc, g).value;
    ModelsReexported(db, f, t, doc);
    AgentsReexported(db, f, t, doc);
    SchemasReexported(db, f, t, doc);
  }
}
