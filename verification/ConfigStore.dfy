// The adapter's own form: tables updated in place, loops over document items and table rows.
// Each method is proved against the specification functions of ConfigImport and ConfigExport.
module ConfigStore {
  import opened Prelude
  import opened ConfigModel
  import opened ConfigImport

  // How a method reports the result of its specification: the error, or the new tables.
  ghost predicate Reports(r: Result<Tables, ImportError>, err: Option<ImportError>, db: Tables) {
    match r
    case Ok(db') => err == None && db == db'
    case Err(e) => err == Some(e)
  }

  class ConfigDatabase {
    var nextId: nat
    var models: map<Key, ModelRow>
    var servers: map<Key, ServerRow>
    var agents: map<Key, AgentRow>
    var schemas: map<Key, SchemaRow>
    var tools: ChildTable<ToolKey, ToolData>
    var links: ChildTable<nat, Link>
    var relations: ChildTable<Arrow, string>

    function Contents(): Tables
      reads this
    {
      Tables(nextId, models, servers, agents, schemas, tools, links, relations)
    }

    // ---- import ----

    method ImportModels(tenant: string, items: seq<ModelItem>)
      modifies this
      ensures FoldSteps(Step(tenant), old(Contents()), ModelOps(items)) == Ok(Contents())
    {
      var i := 0;
      ghost var ops := ModelOps(items);
      assert ops[0..] == ops;
      while i < |items|
        invariant 0 <= i <= |items| == |ops|
        invariant FoldSteps(Step(tenant), Contents(), ops[i..]) == FoldSteps(Step(tenant), old(Contents()), ops)
      {
        assert ops[i..][0] == UpsertModel(items[i]) && ops[i..][1..] == ops[i + 1..];
        var m := items[i];
        var k := Key(tenant, m.name);
        if k in models {
          var existing := models[k];
          models := models[k := existing.(provider := m.provider, baseURL := m.baseURL,
                                          modelName := m.modelName, extraBody := m.extraBody)];
        } else {
          models := models[k := ModelRow(nextId, m.provider, m.baseURL, m.modelName, m.extraBody,
              DefaultModelSecret())];
          nextId := nextId + 1;
        }
        i := i + 1;
      }
    }

    method ImportServer(tenant: string, s: ServerItem)
      modifies this
      ensures Apply(old(Contents()), tenant, UpsertServer(s)) == Ok(Contents())
    {
      var k := Key(tenant, s.name);
      var args, headers := NonEmpty(s.args), NonEmpty(s.forwardHeaders);
      var clean := WithoutPlaceholders(s.envVars);
      var env := if clean != map[] then Some(clean) else None;
      if k in servers {
        var existing := servers[k].(transport := s.transport, command := s.command, url := s.url);
        if args.Some? { existing := existing.(args := args); }
        if env.Some? { existing := existing.(envVars := env); }
        if headers.Some? { existing := existing.(forwardHeaders := headers); }
        servers := servers[k := existing];
      } else {
        servers := servers[k := ServerRow(nextId, s.transport, s.command, args, s.url, env, headers,
            DefaultServerSecret())];
        nextId := nextId + 1;
      }
    }

    method ImportServers(tenant: string, items: seq<ServerItem>)
      modifies this
      ensures FoldSteps(Step(tenant), old(Contents()), ServerOps(items)) == Ok(Contents())
    {
      var i := 0;
      ghost var ops := ServerOps(items);
      assert ops[0..] == ops;
      while i < |items|
        invariant 0 <= i <= |items| == |ops|
        invariant FoldSteps(Step(tenant), Contents(), ops[i..]) == FoldSteps(Step(tenant), old(Contents()), ops)
      {
        assert ops[i..][0] == UpsertServer(items[i]) && ops[i..][1..] == ops[i + 1..];
        ImportServer(tenant, items[i]);
        i := i + 1;
      }
    }

    method ImportAgentRecord(tenant: string, a: AgentItem) returns (err: Option<ImportError>)
      modifies this
      ensures Reports(Apply(old(Contents()), tenant, UpsertAgent(a)), err, Contents())
      ensures err.Some? ==> Contents() == old(Contents())
    {
      var settings := Defaults(a.settings);
      if !ValidBudgets(settings) { return Some(BadBudget(a.name)); }
      var modelId: Option<nat> := None;
      if a.modelName != "" {
        if Key(tenant, a.modelName) !in models { return Some(UnknownReference(a.modelName)); }
        modelId := Some(models[Key(tenant, a.modelName)].id);
      }
      var k := Key(tenant, a.name);
      if k in agents {
        agents := agents[k := agents[k].(modelId := modelId, settings := settings,
                                         stopSequences := NonEmpty(a.stopSequences),
                                         confirmBefore := NonEmpty(a.confirmBefore))];
      } else {
        agents := agents[k := AgentRow(nextId, modelId, settings, NonEmpty(a.stopSequences), NonEmpty(a.confirmBefore),
            false)];
        nextId := nextId + 1;
      }
      return None;
    }

    // Pass 1: agent records.
    method ImportAgentRecords(tenant: string, items: seq<AgentItem>) returns (err: Option<ImportError>)
      modifies this
      ensures Reports(FoldSteps(Step(tenant), old(Contents()), AgentOps(items)), err, Contents())
    {
      var i := 0;
      ghost var result := FoldSteps(Step(tenant), Contents(), AgentOps(items));
      assert AgentOps(items)[0..] == AgentOps(items);
      while i < |items|
        invariant 0 <= i <= |items|
        invariant FoldSteps(Step(tenant), Contents(), AgentOps(items)[i..]) == result
      {
        AgentsFrom(Contents(), tenant, items, i);
        err := ImportAgentRecord(tenant, items[i]);
        if err.Some? { return; }
        i := i + 1;
      }
      return None;
    }

    method SyncAgentTools(tenant: string, owner: nat, names: seq<string>) returns (err: Option<ImportError>)
      modifies this`tools
      ensures match ReplaceOwned(old(tools), owner, tenant, names, ToolRows())
              case Ok(m) => err == None && tools == m
              case Err(e) => err == Some(e)
    {
      tools := DeleteOwned(tools, owner, tenant);
      var i := 0;
      while i < |names|
        invariant 0 <= i <= |names|
        invariant InsertFrom(tools, owner, tenant, names, i, ToolRows())
              == ReplaceOwned(old(tools), owner, tenant, names, ToolRows())
      {
        var c := Child(owner, ToolKey(BUILTIN, names[i]));
        if c in tools { return Some(DuplicateRow); }
        tools := tools[c := Owned(tenant, ToolData(None, i))];
        i := i + 1;
      }
      return None;
    }

    method SyncAgentLinks(tenant: string, owner: nat, names: seq<string>) returns (err: Option<ImportError>)
      modifies this`links
      ensures match ReplaceOwned(old(links), owner, tenant, names, LinkRows(servers, tenant))
              case Ok(m) => err == None && links == m
              case Err(e) => err == Some(e)
    {
      links := DeleteOwned(links, owner, tenant);
      var i := 0;
      while i < |names|
        invariant 0 <= i <= |names|
        invariant InsertFrom(links, owner, tenant, names, i, LinkRows(servers, tenant))
               == ReplaceOwned(old(links), owner, tenant, names, LinkRows(servers, tenant))
      {
        if Key(tenant, names[i]) !in servers { return Some(NotFound); }
        var c := Child(owner, servers[Key(tenant, names[i])].id);
        if c in links { return Some(DuplicateRow); }
        links := links[c := Owned(tenant, Link)];
        i := i + 1;
      }
      return None;
    }

    // Pass 2: tools and MCP links.
    method SyncAgents(tenant: string, items: seq<AgentItem>) returns (err: Option<ImportError>)
      modifies this
      ensures Reports(FoldSteps(Step(tenant), old(Contents()), SyncOps(items)), err, Contents())
    {
      var i := 0;
      assert items[0..] == items;
      while i < |items|
        invariant 0 <= i <= |items|
        invariant FoldSteps(Step(tenant), Contents(), SyncOps(items[i..]))
              == FoldSteps(Step(tenant), old(Contents()), SyncOps(items))
      {
        var a := items[i];
        ghost var ops := SyncOps(items[i + 1..]);
        assert items[i..][0] == a && items[i..][1..] == items[i + 1..];
        assert SyncOps(items[i..])[0] == SyncTools(a) && SyncOps(items[i..])[1..] == [SyncLinks(a)] + ops;
        assert ([SyncLinks(a)] + ops)[1..] == ops;
        if Key(tenant, a.name) !in agents { return Some(NotFound); }
        var agentId := agents[Key(tenant, a.name)].id;
        ghost var before := Contents();
        err := SyncAgentTools(tenant, agentId, a.tools);
        if err.Some? { return; }
        assert Apply(before, tenant, SyncTools(a)) == Ok(Contents());
        err := SyncAgentLinks(tenant, agentId, a.mcpServers);
        if err.Some? { return; }
        i := i + 1;
      }
      return None;
    }

    method UpsertSchemaRow(tenant: string, s: SchemaItem) returns (err: Option<ImportError>)
      modifies this
      ensures Reports(Apply(old(Contents()), tenant, UpsertSchema(s)), err, Contents())
      ensures err.Some? ==> Contents() == old(Contents())
    {
      if s.name == "" { return Some(EmptySchemaName); }
      var k := Key(tenant, s.name);
      if k in schemas && schemas[k].isSystem { return Some(SystemSchema(s.name)); }
      var entry: Option<nat> := None;
      if s.entryAgent != "" {
        if Key(tenant, s.entryAgent) !in agents { return Some(UnknownReference(s.entryAgent)); }
        entry := Some(agents[Key(tenant, s.entryAgent)].id);
      }
      if k in schemas {
        schemas := schemas[k := schemas[k].(description := s.description, chatEnabled := s.chatEnabled,
            entryAgentId := entry)];
      } else {
        schemas := schemas[k := SchemaRow(nextId, s.description, s.chatEnabled, entry, false, None)];
        nextId := nextId + 1;
      }
      return None;
    }

    method ReplaceSchemaRelations(tenant: string, schemaId: nat, items: seq<RelationItem>)
      returns (err: Option<ImportError>)
      modifies this`relations
      ensures match ReplaceOwned(old(relations), schemaId, tenant, items, RelationRows(agents, tenant))
              case Ok(m) => err == None && relations == m
              case Err(e) => err == Some(e)
    {
      relations := DeleteOwned(relations, schemaId, tenant);
      var i := 0;
      while i < |items|
        invariant 0 <= i <= |items|
        invariant InsertFrom(relations, schemaId, tenant, items, i, RelationRows(agents, tenant))
               == ReplaceOwned(old(relations), schemaId, tenant, items, RelationRows(agents, tenant))
      {
        var src, dst := Key(tenant, items[i].source), Key(tenant, items[i].target);
        if src !in agents || dst !in agents { return Some(NotFound); }
        var c := Child(schemaId, Arrow(agents[src].id, agents[dst].id));
        if c in relations { return Some(DuplicateRow); }
        relations := relations[c := Owned(tenant, EMPTY_JSON)];
        i := i + 1;
      }
      return None;
    }

    // One schema: its row, then its delegation graph.
    method ImportSchema(tenant: string, s: SchemaItem) returns (err: Option<ImportError>)
      modifies this
      ensures Reports(FoldSteps(Step(tenant), old(Contents()), [UpsertSchema(s), ReplaceRelations(s)]), err, Contents())
    {
      ghost var before := Contents();
      PairSteps(before, tenant, s);
      err := UpsertSchemaRow(tenant, s);
      if err.Some? { return; }
      SchemaRowThere(before, tenant, s);
      err := ReplaceSchemaRelations(tenant, schemas[Key(tenant, s.name)].id, s.relations);
    }

    method ImportSchemaList(tenant: string, items: seq<SchemaItem>, guard: Guard) returns (err: Option<ImportError>)
      modifies this
      ensures Reports(ImportSchemas(old(Contents()), tenant, items, guard), err, Contents())
    {
      if items == [] { return None; }
      var asked := GateRequest(Contents(), tenant, items);
      if !Admits(guard, asked) { return Some(QuotaDenied(asked)); }
      var i := 0;
      assert items[0..] == items;
      while i < |items|
        invariant 0 <= i <= |items|
        invariant FoldSteps(Step(tenant), Contents(), SchemaOps(items[i..]))
              == FoldSteps(Step(tenant), old(Contents()), SchemaOps(items))
      {
        assert items[i..][0] == items[i] && items[i..][1..] == items[i + 1..];
        FoldAppend(Step(tenant), Contents(), [UpsertSchema(items[i]), ReplaceRelations(items[i])],
            SchemaOps(items[i + 1..]));
        err := ImportSchema(tenant, items[i]);
        if err.Some? { return; }
        i := i + 1;
      }
      return None;
    }

    method ImportEntities(tenant: string, doc: ConfigDoc) returns (err: Option<ImportError>)
      modifies this
      ensures Reports(FoldSteps(Step(tenant), old(Contents()), EntityOps(doc)), err, Contents())
    {
      SectionsAppend(Contents(), tenant, doc);
      ImportModels(tenant, doc.models);
      ImportServers(tenant, doc.servers);
      err := ImportAgentRecords(tenant, doc.agents);
      if err == None { err := SyncAgents(tenant, doc.agents); }
    }

    method Restore(saved: Tables)
      modifies this
      ensures Contents() == saved
    {
      nextId, models, servers, agents, schemas := saved.nextId, saved.models, saved.servers, saved.agents,
          saved.schemas;
      tools, links, relations := saved.tools, saved.links, saved.relations;
    }

    // The whole import runs in one transaction: an error leaves the tables as they were.
    method ImportConfig(tenant: string, doc: ConfigDoc, guard: Guard) returns (err: Option<ImportError>)
      modifies this
      ensures Reports(Import(old(Contents()), tenant, doc, guard), err, Contents())
      ensures err.Some? ==> Contents() == old(Contents())
    {
      var saved := Contents();
      err := ImportEntities(tenant, doc);
      if err == None { err := ImportSchemaList(tenant, doc.schemas, guard); }
      if err.Some? { Restore(saved); }
    }
  }

  lemma PairSteps(db: Tables, tenant: string, s: SchemaItem)
    ensures FoldSteps(Step(tenant), db, [UpsertSchema(s), ReplaceRelations(s)])
         == match Apply(db, tenant, UpsertSchema(s))
            case Err(e) => Err(e)
            case Ok(db1) => Apply(db1, tenant, ReplaceRelations(s))
  {
    FoldSnoc(Step(tenant), db, [UpsertSchema(s)], ReplaceRelations(s));
    FoldSnoc(Step(tenant), db, [], UpsertSchema(s));
    assert [] + [UpsertSchema(s)] == [UpsertSchema(s)];
    assert [UpsertSchema(s)] + [ReplaceRelations(s)] == [UpsertSchema(s), ReplaceRelations(s)];
  }

  lemma AgentsFrom(db: Tables, tenant: string, items: seq<AgentItem>, i: nat)
    requires i < |items|
    ensures FoldSteps(Step(tenant), db, AgentOps(items)[i..])
         == match Apply(db, tenant, UpsertAgent(items[i]))
            case Err(e) => Err(e)
            case Ok(db1) => FoldSteps(Step(tenant), db1, AgentOps(items)[i + 1..])
  {
    var ops := AgentOps(items);
    assert ops[i..][0] == UpsertAgent(items[i]) && ops[i..][1..] == ops[i + 1..];
  }

  lemma SchemaRowThere(db: Tables, tenant: string, s: SchemaItem)
    requires Apply(db, tenant, UpsertSchema(s)).Ok?
    ensures Key(tenant, s.name) in Apply(db, tenant, UpsertSchema(s)).value.schemas
  {
  }

  lemma SectionsAppend(db: Tables, tenant: string, doc: ConfigDoc)
    ensures FoldSteps(Step(tenant), db, EntityOps(doc)) ==
              match FoldSteps(Step(tenant), db, ModelOps(doc.models))
              case Err(e) => Err(e)
              case Ok(db1) =>
                match FoldSteps(Step(tenant), db1, ServerOps(doc.servers))
                case Err(e) => Err(e)
                case Ok(db2) =>
                  match FoldSteps(Step(tenant), db2, AgentOps(doc.agents))
                  case Err(e) => Err(e)
                  case Ok(db3) => FoldSteps(Step(tenant), db3, SyncOps(doc.agents))
  {
    var a, b, c, d := ModelOps(doc.models), ServerOps(doc.servers), AgentOps(doc.agents), SyncOps(doc.agents);
    FoldAppend(Step(tenant), db, a + b + c, d);
    FoldAppend(Step(tenant), db, a + b, c);
    FoldAppend(Step(tenant), db, a, b);
  }
}
