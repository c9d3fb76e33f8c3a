// What a document leaves in the tools and links of its agents and in its schemas and their relations.
module ImportChildren {
  import opened Prelude
  import opened ConfigModel
  import opened ConfigImport
  import opened ChildTables
  import opened ConfigLaws
  import opened ImportRuns
  import opened FreshImport
  import opened TenantRestore
  import opened ImportColumns

  // ---- tools and links of agents ----

  // The agent's tools are the listed builtins, in this order, without settings.
  ghost predicate ToolsAre(f: Tables, t: string, owner: nat, names: seq<string>) {
    && (forall c :: c in f.tools && c.owner == owner ==> c.key.toolType == "builtin" && c.key.toolName in names)
    && (forall i :: 0 <= i < |names| ==>
          var c := Child(owner, ToolKey("builtin", names[i]));
          c in f.tools && f.tools[c] == Owned(t, ToolData(None, i)))
  }

  // The agent is linked to the tenant's servers of the listed names and to no other.
  ghost predicate LinksAre(f: Tables, t: string, owner: nat, names: seq<string>) {
    && (forall c :: c in f.links && c.owner == owner ==>
          exists n :: n in names && Key(t, n) in f.servers && f.servers[Key(t, n)].id == c.key)
    && (forall n :: n in names ==>
          && Key(t, n) in f.servers && Child(owner, f.servers[Key(t, n)].id) in f.links
          && f.links[Child(owner, f.servers[Key(t, n)].id)] == Owned(t, Link))
  }

  // The owner's rows are the same in both tables.
  ghost predicate SameRows<K(!new), V>(m: ChildTable<K, V>, m': ChildTable<K, V>, owner: nat) {
    forall c: Child<K> :: c.owner == owner ==> (c in m <==> c in m') && (c in m ==> m[c] == m'[c])
  }

  ghost predicate SameElsewhere<K(!new), V>(m: ChildTable<K, V>, m': ChildTable<K, V>, owner: nat) {
    forall o: nat :: o != owner ==> SameRows(m, m', o)
  }

  lemma SwapElsewhere<K(!new), V>(m: ChildTable<K, V>, owner: nat, rows: ChildTable<K, V>)
    requires OwnedOnly(rows, owner)
    ensures SameElsewhere(m, Swap(m, owner, rows), owner)
    ensures forall c: Child<K> :: c.owner == owner ==>
          (c in Swap(m, owner, rows) <==> c in rows) && (c in rows ==> Swap(m, owner, rows)[c] == rows[c])
  {
  }

  lemma ToolRowsAre(db: Tables, t: string, a: AgentItem)
    requires WellFormed(db) && Apply(db, t, SyncTools(a)).Ok?
    ensures Key(t, a.name) in db.agents
    ensures var f, id := Apply(db, t, SyncTools(a)).value, db.agents[Key(t, a.name)].id;
            && f == db.(tools := f.tools) && ToolsAre(f, t, id, a.tools)
            && SameElsewhere(db.tools, f.tools, id)
  {
    var id, r := db.agents[Key(t, a.name)].id, ToolRows();
    ReplaceClosed(db.tools, id, t, a.tools, r);
    RowsAt(id, t, a.tools, r);
    var f := Apply(db, t, SyncTools(a)).value;
    SwapElsewhere(db.tools, id, Rows(id, t, a.tools, r));
    forall c | c in f.tools && c.owner == id ensures c.key.toolType == "builtin" && c.key.toolName in a.tools {
      var j :| 0 <= j < |a.tools| && c == Child(id, r(a.tools[j], j).value.0);
      assert c.key == ToolKey("builtin", a.tools[j]);
    }
    forall i | 0 <= i < |a.tools|
      ensures var c := Child(id, ToolKey("builtin", a.tools[i]));
              c in f.tools && f.tools[c] == Owned(t, ToolData(None, i))
    {
      assert r(a.tools[i], i) == Some((ToolKey("builtin", a.tools[i]), ToolData(None, i)));
    }
  }

  lemma LinkedKeys(servers: map<Key, ServerRow>, t: string, owner: nat, names: seq<string>, c: Child<nat>)
    requires Insertable(names, LinkRows(servers, t)) && c in Rows(owner, t, names, LinkRows(servers, t))
    ensures exists n :: n in names && Key(t, n) in servers && servers[Key(t, n)].id == c.key
  {
    var r := LinkRows(servers, t);
    RowsAt(owner, t, names, r);
    var j :| 0 <= j < |names| && c == Child(owner, r(names[j], j).value.0);
    assert r(names[j], j).Some?;
    assert names[j] in names;
  }

  lemma LinkedRow(servers: map<Key, ServerRow>, t: string, owner: nat, names: seq<string>, n: string)
    requires Insertable(names, LinkRows(servers, t)) && n in names
    ensures var rows := Rows(owner, t, names, LinkRows(servers, t));
            && Key(t, n) in servers && Child(owner, servers[Key(t, n)].id) in rows
            && rows[Child(owner, servers[Key(t, n)].id)] == Owned(t, Link)
  {
    var r := LinkRows(servers, t);
    RowsAt(owner, t, names, r);
    var i :| 0 <= i < |names| && names[i] == n;
    assert r(names[i], i).Some?;
    assert r(names[i], i) == Some((servers[Key(t, n)].id, Link));
  }

  lemma LinkRowsAre(db: Tables, t: string, a: AgentItem)
    requires WellFormed(db) && Apply(db, t, SyncLinks(a)).Ok?
    ensures Key(t, a.name) in db.agents
    ensures var f, id := Apply(db, t, SyncLinks(a)).value, db.agents[Key(t, a.name)].id;
            && f == db.(links := f.links) && LinksAre(f, t, id, a.mcpServers)
            && SameElsewhere(db.links, f.links, id)
  {
    var id, r := db.agents[Key(t, a.name)].id, LinkRows(db.servers, t);
    ReplaceClosed(db.links, id, t, a.mcpServers, r);
    SwapElsewhere(db.links, id, Rows(id, t, a.mcpServers, r));
    var f := Apply(db, t, SyncLinks(a)).value;
    forall c | c in f.links && c.owner == id
      ensures exists n :: n in a.mcpServers && Key(t, n) in f.servers && f.servers[Key(t, n)].id == c.key
    {
      LinkedKeys(db.servers, t, id, a.mcpServers, c);
    }
    forall n | n in a.mcpServers
      ensures Key(t, n) in f.servers && Child(id, f.servers[Key(t, n)].id) in f.links
      ensures f.links[Child(id, f.servers[Key(t, n)].id)] == Owned(t, Link)
    {
      LinkedRow(db.servers, t, id, a.mcpServers, n);
    }
  }

  ghost predicate SyncAccepted(db: Tables, t: string, a: AgentItem) {
    && Key(t, a.name) in db.agents
    && Distinct(a.tools) && Distinct(a.mcpServers) && forall n :: n in a.mcpServers ==> Key(t, n) in db.servers
  }

  // An agent that the document names has the children of its last word; the rows of every owner that
  // it does not name stay.
  ghost predicate ChildrenStored(db: Tables, f: Tables, t: string, items: seq<AgentItem>) {
    && (forall k :: k in f.agents && AgentWord(items, t, k).Some? ==>
          var a := AgentWord(items, t, k).value;
          ToolsAre(f, t, f.agents[k].id, a.tools) && LinksAre(f, t, f.agents[k].id, a.mcpServers))
    && (forall owner: nat :: !OwnerNamed(f, t, items, owner) ==>
          SameRows(db.tools, f.tools, owner) && SameRows(db.links, f.links, owner))
  }

  predicate OwnerNamed(f: Tables, t: string, items: seq<AgentItem>, owner: nat) {
    exists k :: k in f.agents && f.agents[k].id == owner && AgentWord(items, t, k).Some?
  }

  lemma SyncStepAccepted(db: Tables, t: string, a: AgentItem)
    requires WellFormed(db)
    ensures Apply(db, t, SyncTools(a)).Ok? && Apply(Apply(db, t, SyncTools(a)).value, t, SyncLinks(a)).Ok?
       <==> SyncAccepted(db, t, a)
  {
    ToolsStepClosed(db, t, a);
    DistinctInsertable(a.tools);
    if Apply(db, t, SyncTools(a)).Ok? {
      var db1 := Apply(db, t, SyncTools(a)).value;
      StepKeeps(db, t, SyncTools(a));
      ToolRowsAre(db, t, a);
      LinksStepClosed(db1, t, a);
      LinksInsertableIff(db1, t, a.mcpServers);
    }
  }

  // Both steps of one agent.
  function Synced(db: Tables, t: string, a: AgentItem): Result<Tables, ImportError> {
    match Apply(db, t, SyncTools(a))
    case Err(e) => Err(e)
    case Ok(db1) => Apply(db1, t, SyncLinks(a))
  }

  lemma SyncStep(db: Tables, t: string, a: AgentItem)
    requires WellFormed(db) && Synced(db, t, a).Ok?
    ensures Key(t, a.name) in db.agents && WellFormed(Synced(db, t, a).value)
    ensures var f, id := Synced(db, t, a).value, db.agents[Key(t, a.name)].id;
            && f == db.(tools := f.tools, links := f.links)
            && ToolsAre(f, t, id, a.tools) && LinksAre(f, t, id, a.mcpServers)
            && SameElsewhere(db.tools, f.tools, id) && SameElsewhere(db.links, f.links, id)
  {
    var db1 := Apply(db, t, SyncTools(a)).value;
    StepKeeps(db, t, SyncTools(a));
    ToolRowsAre(db, t, a);
    StepKeeps(db1, t, SyncLinks(a));
    LinkRowsAre(db1, t, a);
  }

  lemma SyncFold(db: Tables, t: string, items: seq<AgentItem>)
    requires items != []
    ensures FoldSteps(Step(t), db, SyncOps(items))
         == match Synced(db, t, items[0])
            case Err(e) => Err(e)
            case Ok(db1) => FoldSteps(Step(t), db1, SyncOps(items[1..]))
  {
    var x, y, rest := SyncTools(items[0]), SyncLinks(items[0]), SyncOps(items[1..]);
    assert SyncOps(items) == [x] + ([y] + rest);
    assert ([x] + ([y] + rest))[1..] == [y] + rest && ([y] + rest)[1..] == rest;
  }

  lemma SameKeepsTools(f: Tables, f': Tables, t: string, owner: nat, names: seq<string>)
    requires ToolsAre(f, t, owner, names) && SameRows(f.tools, f'.tools, owner)
    ensures ToolsAre(f', t, owner, names)
  {
  }

  lemma SameKeepsLinks(f: Tables, f': Tables, t: string, owner: nat, names: seq<string>)
    requires LinksAre(f, t, owner, names) && SameRows(f.links, f'.links, owner) && f'.servers == f.servers
    ensures LinksAre(f', t, owner, names)
  {
  }

  lemma SyncChain(db: Tables, db1: Tables, f: Tables, t: string, a: AgentItem, rest: seq<AgentItem>)
    requires WellFormed(db) && Synced(db, t, a) == Ok(db1) && ChildrenStored(db1, f, t, rest)
    requires f == db1.(tools := f.tools, links := f.links)
    ensures ChildrenStored(db, f, t, [a] + rest)
  {
    SyncStep(db, t, a);
    IdsOfTables(db);
    var own := Key(t, a.name);
    forall k | k in f.agents && AgentWord([a] + rest, t, k).Some?
      ensures var x := AgentWord([a] + rest, t, k).value;
              ToolsAre(f, t, f.agents[k].id, x.tools) && LinksAre(f, t, f.agents[k].id, x.mcpServers)
    {
      LastOfMoreAgents(a, rest, t, k);
      if AgentWord(rest, t, k).None? {
        assert k == own && !OwnerNamed(f, t, rest, f.agents[k].id);
        SameKeepsTools(db1, f, t, f.agents[k].id, a.tools);
        SameKeepsLinks(db1, f, t, f.agents[k].id, a.mcpServers);
      }
    }
    forall owner: nat | !OwnerNamed(f, t, [a] + rest, owner)
      ensures SameRows(db.tools, f.tools, owner) && SameRows(db.links, f.links, owner)
    {
      OwnerNotNamed(f, t, a, rest, owner);
      assert SameRows(db.tools, db1.tools, owner) && SameRows(db.links, db1.links, owner);
      assert SameRows(db1.tools, f.tools, owner) && SameRows(db1.links, f.links, owner);
    }
  }

  lemma OwnerNotNamed(f: Tables, t: string, a: AgentItem, rest: seq<AgentItem>, owner: nat)
    requires !OwnerNamed(f, t, [a] + rest, owner) && Key(t, a.name) in f.agents
    ensures !OwnerNamed(f, t, rest, owner) && owner != f.agents[Key(t, a.name)].id
  {
    forall k | k in f.agents && f.agents[k].id == owner ensures AgentWord(rest, t, k).None? && k != Key(t, a.name) {
      LastOfMoreAgents(a, rest, t, k);
      assert AgentWord([a] + rest, t, k).None?;
    }
  }

  lemma {:induction false} SyncSectionAccepted(db: Tables, t: string, items: seq<AgentItem>)
    requires WellFormed(db)
    ensures FoldSteps(Step(t), db, SyncOps(items)).Ok? <==> forall a :: a in items ==> SyncAccepted(db, t, a)
    decreases |items|
  {
    if items != [] {
      var a, rest := items[0], items[1..];
      SyncFold(db, t, items);
      SyncStepAccepted(db, t, a);
      assert items == [a] + rest;
      if Synced(db, t, a).Ok? {
        var db1 := Synced(db, t, a).value;
        SyncStep(db, t, a);
        SyncSectionAccepted(db1, t, rest);
        assert forall x :: SyncAccepted(db1, t, x) <==> SyncAccepted(db, t, x);
      }
    }
  }

  lemma {:induction false} SyncSection(db: Tables, t: string, items: seq<AgentItem>)
    requires WellFormed(db) && FoldSteps(Step(t), db, SyncOps(items)).Ok?
    ensures var f := FoldSteps(Step(t), db, SyncOps(items)).value;
            f == db.(tools := f.tools, links := f.links) && ChildrenStored(db, f, t, items)
    decreases |items|
  {
    if items != [] {
      var a, rest := items[0], items[1..];
      SyncFold(db, t, items);
      var db1, f := Synced(db, t, a).value, FoldSteps(Step(t), db, SyncOps(items)).value;
      SyncStep(db, t, a);
      SyncSection(db1, t, rest);
      SyncChain(db, db1, f, t, a, rest);
      assert [a] + rest == items;
    }
  }

  // ---- schemas and their relations ----

  predicate SchemaWritten(f: Tables, t: string, k: Key, last: Option<SchemaItem>) {
    k in f.schemas && last.Some? ==>
      var row, s := f.schemas[k], last.value;
      && row.description == s.description && row.chatEnabled == s.chatEnabled && !row.isSystem
      && (if s.entryAgent == "" then row.entryAgentId == None
          else Key(t, s.entryAgent) in f.agents && row.entryAgentId == Some(f.agents[Key(t, s.entryAgent)].id))
  }

  predicate SchemaKept(db: Tables, f: Tables, k: Key, last: Option<SchemaItem>) {
    k in f.schemas ==>
      var row := f.schemas[k];
      if k in db.schemas then
        && row.id == db.schemas[k].id && row.isSystem == db.schemas[k].isSystem
        && row.chatLastFired == db.schemas[k].chatLastFired && (last.None? ==> row == db.schemas[k])
      else db.nextId <= row.id && row.chatLastFired == None
  }

  predicate SchemaStored(db: Tables, f: Tables, t: string, k: Key, last: Option<SchemaItem>) {
    (k in f.schemas <==> k in db.schemas || last.Some?) && SchemaWritten(f, t, k, last) && SchemaKept(db, f, k, last)
  }

  // The schema's relations are the listed ones between the tenant's agents, without settings.
  ghost predicate RelationsAre(f: Tables, t: string, owner: nat, items: seq<RelationItem>) {
    && (forall c :: c in f.relations && c.owner == owner ==>
          exists r :: r in items && Key(t, r.source) in f.agents && Key(t, r.target) in f.agents
                      && c.key == Arrow(f.agents[Key(t, r.source)].id, f.agents[Key(t, r.target)].id))
    && (forall r :: r in items ==>
          && Key(t, r.source) in f.agents && Key(t, r.target) in f.agents
          && var c := Child(owner, Arrow(f.agents[Key(t, r.source)].id, f.agents[Key(t, r.target)].id));
             c in f.relations && f.relations[c] == Owned(t, "{}"))
  }

  ghost predicate SchemasStored(db: Tables, f: Tables, t: string, items: seq<SchemaItem>) {
    && (forall k: Key :: SchemaStored(db, f, t, k, SchemaWord(items, t, k)))
    && (forall k :: k in f.schemas && SchemaWord(items, t, k).Some? ==>
          RelationsAre(f, t, f.schemas[k].id, SchemaWord(items, t, k).value.relations))
    && (forall owner: nat :: !SchemaNamed(f, t, items, owner) ==> SameRows(db.relations, f.relations, owner))
  }

  predicate SchemaNamed(f: Tables, t: string, items: seq<SchemaItem>, owner: nat) {
    exists k :: k in f.schemas && f.schemas[k].id == owner && SchemaWord(items, t, k).Some?
  }

  ghost predicate SchemaRowAccepted(db: Tables, t: string, s: SchemaItem) {
    && s.name != "" && !(Key(t, s.name) in db.schemas && db.schemas[Key(t, s.name)].isSystem)
    && (s.entryAgent != "" ==> Key(t, s.entryAgent) in db.agents)
  }

  ghost predicate SchemaAccepted(db: Tables, t: string, s: SchemaItem) {
    && SchemaRowAccepted(db, t, s) && Distinct(s.relations)
    && forall r :: r in s.relations ==> Key(t, r.source) in db.agents && Key(t, r.target) in db.agents
  }

  // Both steps of one schema.
  function Upserted(db: Tables, t: string, s: SchemaItem): Result<Tables, ImportError> {
    match Apply(db, t, UpsertSchema(s))
    case Err(e) => Err(e)
    case Ok(db1) => Apply(db1, t, ReplaceRelations(s))
  }

  lemma LastOfMoreSchemas(s: SchemaItem, rest: seq<SchemaItem>, t: string, k: Key)
    ensures SchemaWord([s], t, k) == if k == Key(t, s.name) then Some(s) else None
    ensures SchemaWord([s] + rest, t, k)
         == if SchemaWord(rest, t, k).Some? then SchemaWord(rest, t, k) else SchemaWord([s], t, k)
  {
    assert [s][1..] == [] && ([s] + rest)[1..] == rest && ([s] + rest)[0] == s;
    assert k == Key(k.tenant, k.name);
    assert LastSchema([s], k.name) == if s.name == k.name then Some(s) else None;
  }

  lemma SchemaRowStepAccepted(db: Tables, t: string, s: SchemaItem)
    ensures Apply(db, t, UpsertSchema(s)).Ok? <==> SchemaRowAccepted(db, t, s)
    ensures Apply(db, t, UpsertSchema(s)).Ok? ==>
              Apply(db, t, UpsertSchema(s)).value.agents == db.agents
              && Key(t, s.name) in Apply(db, t, UpsertSchema(s)).value.schemas
  {
  }

  lemma RelationsAccepted(db: Tables, t: string, s: SchemaItem)
    requires WellFormed(db) && Key(t, s.name) in db.schemas
    ensures Apply(db, t, ReplaceRelations(s)).Ok?
       <==> Distinct(s.relations)
            && forall r :: r in s.relations ==> Key(t, r.source) in db.agents && Key(t, r.target) in db.agents
  {
    RelationsStepClosed(db, t, s);
    RelationsInsertableIff(db, t, s.relations);
  }

  lemma SchemaStepAccepted(db: Tables, t: string, s: SchemaItem)
    requires WellFormed(db)
    ensures Upserted(db, t, s).Ok? <==> SchemaAccepted(db, t, s)
  {
    SchemaRowStepAccepted(db, t, s);
    if Apply(db, t, UpsertSchema(s)).Ok? {
      StepKeeps(db, t, UpsertSchema(s));
      RelationsAccepted(Apply(db, t, UpsertSchema(s)).value, t, s);
    }
  }

  lemma RelatedKeys(agents: map<Key, AgentRow>, t: string, owner: nat, items: seq<RelationItem>, c: Child<Arrow>)
    requires Insertable(items, RelationRows(agents, t)) && c in Rows(owner, t, items, RelationRows(agents, t))
    ensures exists r :: r in items && Key(t, r.source) in agents && Key(t, r.target) in agents
                        && c.key == Arrow(agents[Key(t, r.source)].id, agents[Key(t, r.target)].id)
  {
    var f := RelationRows(agents, t);
    RowsAt(owner, t, items, f);
    var j :| 0 <= j < |items| && c == Child(owner, f(items[j], j).value.0);
    assert f(items[j], j).Some?;
    assert items[j] in items;
  }

  lemma RelatedRow(agents: map<Key, AgentRow>, t: string, owner: nat, items: seq<RelationItem>, r: RelationItem)
    requires Insertable(items, RelationRows(agents, t)) && r in items
    ensures Key(t, r.source) in agents && Key(t, r.target) in agents
    ensures var rows := Rows(owner, t, items, RelationRows(agents, t));
            var c := Child(owner, Arrow(agents[Key(t, r.source)].id, agents[Key(t, r.target)].id));
            c in rows && rows[c] == Owned(t, "{}")
  {
    var f := RelationRows(agents, t);
    RowsAt(owner, t, items, f);
    var i :| 0 <= i < |items| && items[i] == r;
    assert f(items[i], i).Some?;
  }

  lemma RelationRowsAre(db: Tables, t: string, s: SchemaItem)
    requires WellFormed(db) && Apply(db, t, ReplaceRelations(s)).Ok?
    ensures Key(t, s.name) in db.schemas
    ensures var f, id := Apply(db, t, ReplaceRelations(s)).value, db.schemas[Key(t, s.name)].id;
            && f == db.(relations := f.relations) && RelationsAre(f, t, id, s.relations)
            && SameElsewhere(db.relations, f.relations, id)
  {
    var id, r := db.schemas[Key(t, s.name)].id, RelationRows(db.agents, t);
    ReplaceClosed(db.relations, id, t, s.relations, r);
    SwapElsewhere(db.relations, id, Rows(id, t, s.relations, r));
    var f := Apply(db, t, ReplaceRelations(s)).value;
    forall c | c in f.relations && c.owner == id
      ensures exists r :: r in s.relations && Key(t, r.source) in f.agents && Key(t, r.target) in f.agents
                          && c.key == Arrow(f.agents[Key(t, r.source)].id, f.agents[Key(t, r.target)].id)
    {
      RelatedKeys(db.agents, t, id, s.relations, c);
    }
    forall x | x in s.relations
      ensures Key(t, x.source) in f.agents && Key(t, x.target) in f.agents
      ensures var c := Child(id, Arrow(f.agents[Key(t, x.source)].id, f.agents[Key(t, x.target)].id));
              c in f.relations && f.relations[c] == Owned(t, "{}")
    {
      RelatedRow(db.agents, t, id, s.relations, x);
    }
  }

  lemma SchemaRowStep(db: Tables, t: string, s: SchemaItem)
    requires Apply(db, t, UpsertSchema(s)).Ok?
    ensures var f := Apply(db, t, UpsertSchema(s)).value;
            && f == db.(schemas := f.schemas, nextId := f.nextId) && db.nextId <= f.nextId
            && forall k: Key :: SchemaStored(db, f, t, k, SchemaWord([s], t, k))
  {
    var f := Apply(db, t, UpsertSchema(s)).value;
    forall k: Key ensures SchemaStored(db, f, t, k, SchemaWord([s], t, k)) { LastOfMoreSchemas(s, [], t, k); }
  }

  lemma SchemaStep(db: Tables, t: string, s: SchemaItem)
    requires WellFormed(db) && Upserted(db, t, s).Ok?
    ensures var f := Upserted(db, t, s).value;
            && WellFormed(f) && f == db.(schemas := f.schemas, relations := f.relations, nextId := f.nextId)
            && db.nextId <= f.nextId && (forall k: Key :: SchemaStored(db, f, t, k, SchemaWord([s], t, k)))
            && Key(t, s.name) in f.schemas
            && RelationsAre(f, t, f.schemas[Key(t, s.name)].id, s.relations)
            && SameElsewhere(db.relations, f.relations, f.schemas[Key(t, s.name)].id)
  {
    var db1 := Apply(db, t, UpsertSchema(s)).value;
    SchemaRowStep(db, t, s);
    StepKeeps(db, t, UpsertSchema(s));
    RelationRowsAre(db1, t, s);
    StepKeeps(db1, t, ReplaceRelations(s));
    var f := Upserted(db, t, s).value;
    forall k: Key ensures SchemaStored(db, f, t, k, SchemaWord([s], t, k)) {
      assert SchemaStored(db, db1, t, k, SchemaWord([s], t, k));
    }
  }

  lemma SchemaFoldPair(db: Tables, t: string, items: seq<SchemaItem>)
    requires items != []
    ensures FoldSteps(Step(t), db, SchemaOps(items))
         == match Upserted(db, t, items[0])
            case Err(e) => Err(e)
            case Ok(db1) => FoldSteps(Step(t), db1, SchemaOps(items[1..]))
  {
    var x, y, rest := UpsertSchema(items[0]), ReplaceRelations(items[0]), SchemaOps(items[1..]);
    assert SchemaOps(items) == [x] + ([y] + rest);
    assert ([x] + ([y] + rest))[1..] == [y] + rest && ([y] + rest)[1..] == rest;
  }

  lemma SchemaChain(db: Tables, db1: Tables, f: Tables, t: string, k: Key, s: Option<SchemaItem>,
                    rest: Option<SchemaItem>)
    requires SchemaStored(db, db1, t, k, s) && SchemaStored(db1, f, t, k, rest)
    requires db.nextId <= db1.nextId && db1.agents == f.agents
    ensures SchemaStored(db, f, t, k, if rest.Some? then rest else s)
  {
  }

  lemma SameKeepsRelations(f: Tables, f': Tables, t: string, owner: nat, items: seq<RelationItem>)
    requires RelationsAre(f, t, owner, items) && SameRows(f.relations, f'.relations, owner) && f'.agents == f.agents
    ensures RelationsAre(f', t, owner, items)
  {
  }

  lemma SchemaNotNamed(f: Tables, t: string, s: SchemaItem, rest: seq<SchemaItem>, owner: nat)
    requires !SchemaNamed(f, t, [s] + rest, owner) && Key(t, s.name) in f.schemas
    ensures !SchemaNamed(f, t, rest, owner) && owner != f.schemas[Key(t, s.name)].id
  {
    forall k | k in f.schemas && f.schemas[k].id == owner ensures SchemaWord(rest, t, k).None? && k != Key(t, s.name) {
      LastOfMoreSchemas(s, rest, t, k);
      assert SchemaWord([s] + rest, t, k).None?;
    }
  }

  lemma SchemasChain(db: Tables, db1: Tables, f: Tables, t: string, s: SchemaItem, rest: seq<SchemaItem>)
    requires WellFormed(db) && Upserted(db, t, s) == Ok(db1) && SchemasStored(db1, f, t, rest) && WellFormed(f)
    requires f == db1.(schemas := f.schemas, relations := f.relations, nextId := f.nextId)
    ensures SchemasStored(db, f, t, [s] + rest)
  {
    SchemaStep(db, t, s);
    IdsOfTables(f);
    var own := Key(t, s.name);
    forall k: Key ensures SchemaStored(db, f, t, k, SchemaWord([s] + rest, t, k)) {
      LastOfMoreSchemas(s, rest, t, k);
      SchemaChain(db, db1, f, t, k, SchemaWord([s], t, k), SchemaWord(rest, t, k));
    }
    assert SchemaStored(db1, f, t, own, SchemaWord(rest, t, own));
    forall k | k in f.schemas && SchemaWord([s] + rest, t, k).Some?
      ensures RelationsAre(f, t, f.schemas[k].id, SchemaWord([s] + rest, t, k).value.relations)
    {
      LastOfMoreSchemas(s, rest, t, k);
      if SchemaWord(rest, t, k).None? {
        assert k == own && !SchemaNamed(f, t, rest, f.schemas[k].id);
        SameKeepsRelations(db1, f, t, f.schemas[k].id, s.relations);
      }
    }
    forall owner: nat | !SchemaNamed(f, t, [s] + rest, owner) ensures SameRows(db.relations, f.relations, owner) {
      SchemaNotNamed(f, t, s, rest, owner);
      assert SameRows(db.relations, db1.relations, owner) && SameRows(db1.relations, f.relations, owner);
    }
  }

  lemma {:induction false} SchemaSectionAccepted(db: Tables, t: string, items: seq<SchemaItem>)
    requires WellFormed(db)
    ensures FoldSteps(Step(t), db, SchemaOps(items)).Ok? <==> forall s :: s in items ==> SchemaAccepted(db, t, s)
    decreases |items|
  {
    if items != [] {
      var s, rest := items[0], items[1..];
      SchemaFoldPair(db, t, items);
      SchemaStepAccepted(db, t, s);
      assert items == [s] + rest;
      if Upserted(db, t, s).Ok? {
        var db1 := Upserted(db, t, s).value;
        SchemaStep(db, t, s);
        SchemaSectionAccepted(db1, t, rest);
        forall x | x in rest ensures SchemaAccepted(db1, t, x) <==> SchemaAccepted(db, t, x) {
          assert SchemaStored(db, db1, t, Key(t, x.name), SchemaWord([s], t, Key(t, x.name)));
        }
      }
    }
  }

  lemma {:induction false} SchemaSection(db: Tables, t: string, items: seq<SchemaItem>)
    requires WellFormed(db) && FoldSteps(Step(t), db, SchemaOps(items)).Ok?
    ensures var f := FoldSteps(Step(t), db, SchemaOps(items)).value;
            && f == db.(schemas := f.schemas, relations := f.relations, nextId := f.nextId)
            && db.nextId <= f.nextId && SchemasStored(db, f, t, items)
    decreases |items|
  {
    if items != [] {
      var s, rest := items[0], items[1..];
      SchemaFoldPair(db, t, items);
      FoldKeeps(db, t, SchemaOps(items));
      var db1, f := Upserted(db, t, s).value, FoldSteps(Step(t), db, SchemaOps(items)).value;
      SchemaStep(db, t, s);
      SchemaSection(db1, t, rest);
      SchemasChain(db, db1, f, t, s, rest);
      assert [s] + rest == items;
    }
  }
}
