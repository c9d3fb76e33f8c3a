// Every import keeps the tenant's references inside the tenant.
module ReferenceClosure {
  import opened Prelude
  import opened ConfigModel
  import opened ConfigImport
  import opened ChildTables
  import opened ConfigLaws
  import opened ImportRuns
  import opened ImportTheorems
  import opened ConfigExport

  lemma HasExtends(b: Tables, a: Tables, t: string, id: nat)
    requires IdsExtend(b, a)
    ensures HasModel(b, t, id) ==> HasModel(a, t, id)
    ensures HasServer(b, t, id) ==> HasServer(a, t, id)
    ensures HasAgent(b, t, id) ==> HasAgent(a, t, id)
  {
    if HasModel(b, t, id) {
      var k :| k in b.models && k.tenant == t && b.models[k].id == id;
      assert k in a.models;
    }
    if HasServer(b, t, id) {
      var k :| k in b.servers && k.tenant == t && b.servers[k].id == id;
      assert k in a.servers;
    }
    if HasAgent(b, t, id) {
      var k :| k in b.agents && k.tenant == t && b.agents[k].id == id;
      assert k in a.agents;
    }
  }

  ghost predicate AgentsClosed(agents: map<Key, AgentRow>, db: Tables, t: string) {
    forall k :: k in agents && k.tenant == t && agents[k].modelId.Some? ==> HasModel(db, t, agents[k].modelId.value)
  }

  ghost predicate SchemasClosed(schemas: map<Key, SchemaRow>, db: Tables, t: string) {
    forall k :: k in schemas && k.tenant == t && schemas[k].entryAgentId.Some? ==>
        HasAgent(db, t, schemas[k].entryAgentId.value)
  }

  ghost predicate LinksClosed(links: ChildTable<nat, Link>, db: Tables, t: string) {
    forall c :: c in links && links[c].tenant == t ==> HasServer(db, t, c.key)
  }

  ghost predicate RelationsClosed(relations: ChildTable<Arrow, string>, db: Tables, t: string) {
    forall c :: c in relations && relations[c].tenant == t ==>
        HasAgent(db, t, c.key.source) && HasAgent(db, t, c.key.target)
  }

  // A table closed over `b` is closed over any extension of it.
  lemma ClosedExtends(b: Tables, a: Tables, t: string)
    requires IdsExtend(b, a) && Closed(b, t)
    ensures AgentsClosed(b.agents, a, t) && SchemasClosed(b.schemas, a, t)
    ensures LinksClosed(b.links, a, t) && RelationsClosed(b.relations, a, t)
  {
    forall id ensures HasModel(b, t, id) ==> HasModel(a, t, id) { HasExtends(b, a, t, id); }
    forall id ensures HasServer(b, t, id) ==> HasServer(a, t, id) { HasExtends(b, a, t, id); }
    forall id ensures HasAgent(b, t, id) ==> HasAgent(a, t, id) { HasExtends(b, a, t, id); }
  }

  lemma AgentPutIs(db: Tables, k: Key, a: AgentItem, modelId: Option<nat>) returns (row: AgentRow)
    ensures var db' := ApplyAgent(db, k, a, modelId);
            db'.models == db.models && db'.agents == db.agents[k := row] && row.modelId == modelId
  {
    row := OverAgent(if k in db.agents then db.agents[k] else BlankAgent(db.nextId), a, modelId);
  }

  lemma PutAgentCloses(agents: map<Key, AgentRow>, k: Key, row: AgentRow, db: Tables, t: string)
    requires AgentsClosed(agents, db, t) && (row.modelId.Some? ==> HasModel(db, t, row.modelId.value))
    ensures AgentsClosed(agents[k := row], db, t)
  {
  }

  lemma ModelRefHas(db: Tables, t: string, name: string)
    requires name == "" || Key(t, name) in db.models
    ensures ModelRef(db, t, name).Some? ==> HasModel(db, t, ModelRef(db, t, name).value)
  {
    if name != "" { assert Key(t, name) in db.models; }
  }

  lemma HasModelByTable(db: Tables, db': Tables, t: string, id: nat)
    requires db.models == db'.models
    ensures HasModel(db, t, id) <==> HasModel(db', t, id)
  {
  }

  lemma AgentStepCloses(db: Tables, db': Tables, t: string, a: AgentItem)
    requires Apply(db, t, UpsertAgent(a)) == Ok(db') && AgentsClosed(db.agents, db', t)
    ensures AgentsClosed(db'.agents, db', t)
  {
    var k, model := Key(t, a.name), ModelRef(db, t, a.modelName);
    var row := AgentPutIs(db, k, a, model);
    ModelRefHas(db, t, a.modelName);
    if model.Some? { HasModelByTable(db, db', t, model.value); }
    PutAgentCloses(db.agents, k, row, db', t);
  }

  lemma SchemaPutIs(db: Tables, k: Key, s: SchemaItem, entry: Option<nat>) returns (row: SchemaRow)
    ensures var db' := ApplySchema(db, k, s, entry);
            db'.agents == db.agents && db'.schemas == db.schemas[k := row] && row.entryAgentId == entry
  {
    row := OverSchema(if k in db.schemas then db.schemas[k] else BlankSchema(db.nextId), s, entry);
  }

  lemma SchemaStepCloses(db: Tables, db': Tables, t: string, s: SchemaItem)
    requires Apply(db, t, UpsertSchema(s)) == Ok(db') && SchemasClosed(db.schemas, db', t)
    ensures SchemasClosed(db'.schemas, db', t)
  {
    var k, entry := Key(t, s.name), AgentRef(db, t, s.entryAgent);
    var row := SchemaPutIs(db, k, s, entry);
    if entry.Some? { assert Key(t, s.entryAgent) in db'.agents; }
    PutSchemaCloses(db.schemas, k, row, db', t);
  }

  lemma PutSchemaCloses(schemas: map<Key, SchemaRow>, k: Key, row: SchemaRow, db: Tables, t: string)
    requires SchemasClosed(schemas, db, t) && (row.entryAgentId.Some? ==> HasAgent(db, t, row.entryAgentId.value))
    ensures SchemasClosed(schemas[k := row], db, t)
  {
  }

  lemma LinkStepCloses(db: Tables, db': Tables, t: string, a: AgentItem)
    requires WellFormed(db) && Apply(db, t, SyncLinks(a)) == Ok(db') && LinksClosed(db.links, db', t)
    ensures LinksClosed(db'.links, db', t)
  {
    StepClosed(db, t, SyncLinks(a));
    var id, r := db.agents[Key(t, a.name)].id, LinkRows(db.servers, t);
    var rows := Rows(id, t, a.mcpServers, r);
    RowsAt(id, t, a.mcpServers, r);
    forall c | c in rows ensures HasServer(db', t, c.key) {
      var j :| 0 <= j < |a.mcpServers| && c == Child(id, r(a.mcpServers[j], j).value.0);
      assert r(a.mcpServers[j], j).Some?;
      assert Key(t, a.mcpServers[j]) in db'.servers;
    }
  }

  lemma RelationStepCloses(db: Tables, db': Tables, t: string, s: SchemaItem)
    requires WellFormed(db) && Apply(db, t, ReplaceRelations(s)) == Ok(db') && RelationsClosed(db.relations, db', t)
    ensures RelationsClosed(db'.relations, db', t)
  {
    StepClosed(db, t, ReplaceRelations(s));
    var id, r := db.schemas[Key(t, s.name)].id, RelationRows(db.agents, t);
    var rows := Rows(id, t, s.relations, r);
    RelationRowsClosed(db, t, id, s.relations);
    assert db' == db.(relations := Swap(db.relations, id, rows));
    forall c | c in rows ensures HasAgent(db', t, c.key.source) && HasAgent(db', t, c.key.target) {
      assert HasAgent(db, t, c.key.source) && HasAgent(db, t, c.key.target);
    }
  }

  lemma RelationRowsClosed(db: Tables, t: string, id: nat, items: seq<RelationItem>)
    requires Insertable(items, RelationRows(db.agents, t))
    ensures forall c :: c in Rows(id, t, items, RelationRows(db.agents, t)) ==>
          HasAgent(db, t, c.key.source) && HasAgent(db, t, c.key.target)
  {
    var r := RelationRows(db.agents, t);
    RowsAt(id, t, items, r);
    forall c | c in Rows(id, t, items, r) ensures HasAgent(db, t, c.key.source) && HasAgent(db, t, c.key.target) {
      var j :| 0 <= j < |items| && c == Child(id, r(items[j], j).value.0);
      assert r(items[j], j).Some?;
      assert Key(t, items[j].source) in db.agents && Key(t, items[j].target) in db.agents;
    }
  }

  // The table a step writes; the other three of agents, schemas, links, relations stay.
  lemma StepLeaves(db: Tables, db': Tables, t: string, op: Op)
    requires Apply(db, t, op) == Ok(db')
    ensures !op.UpsertAgent? ==> db'.agents == db.agents
    ensures !op.UpsertSchema? ==> db'.schemas == db.schemas
    ensures !op.SyncLinks? ==> db'.links == db.links
    ensures !op.ReplaceRelations? ==> db'.relations == db.relations
  {
    match op
    case UpsertModel(_) =>
    case UpsertServer(_) =>
    case UpsertAgent(_) =>
    case SyncTools(_) =>
    case SyncLinks(_) =>
    case UpsertSchema(_) =>
    case ReplaceRelations(_) =>
  }

  lemma StepKeepsClosed(db: Tables, t: string, op: Op)
    requires WellFormed(db) && Closed(db, t) && Apply(db, t, op).Ok?
    ensures Closed(Apply(db, t, op).value, t)
  {
    var db' := Apply(db, t, op).value;
    StepKeeps(db, t, op);
    ClosedExtends(db, db', t);
    PartsStayClosed(db, db', t, op);
  }

  lemma PartsStayClosed(db: Tables, db': Tables, t: string, op: Op)
    requires WellFormed(db) && Apply(db, t, op) == Ok(db')
    requires AgentsClosed(db.agents, db', t) && SchemasClosed(db.schemas, db', t)
    requires LinksClosed(db.links, db', t) && RelationsClosed(db.relations, db', t)
    ensures AgentsClosed(db'.agents, db', t) && SchemasClosed(db'.schemas, db', t)
    ensures LinksClosed(db'.links, db', t) && RelationsClosed(db'.relations, db', t)
  {
    StepLeaves(db, db', t, op);
    match op
    case UpsertAgent(a) => AgentStepCloses(db, db', t, a);
    case SyncLinks(a) => LinkStepCloses(db, db', t, a);
    case UpsertSchema(s) => SchemaStepCloses(db, db', t, s);
    case ReplaceRelations(s) => RelationStepCloses(db, db', t, s);
    case _ =>
  }

  lemma {:induction false} FoldKeepsClosed(db: Tables, t: string, ops: seq<Op>)
    requires WellFormed(db) && Closed(db, t) && FoldSteps(Step(t), db, ops).Ok?
    ensures Closed(FoldSteps(Step(t), db, ops).value, t)
    decreases |ops|
  {
    if ops != [] {
      StepKeeps(db, t, ops[0]);
      StepKeepsClosed(db, t, ops[0]);
      FoldKeepsClosed(Apply(db, t, ops[0]).value, t, ops[1..]);
    }
  }

  // A successful import, of any document, keeps the database well-formed and the tenant closed.
  lemma ImportKeepsClosed(db: Tables, t: string, doc: ConfigDoc, g: Guard)
    requires WellFormed(db) && Closed(db, t) && Import(db, t, doc, g).Ok?
    ensures WellFormed(Import(db, t, doc, g).value) && Closed(Import(db, t, doc, g).value, t)
  {
    ImportIsFold(db, t, doc, g);
    FoldKeeps(db, t, AllOps(doc));
    FoldKeepsClosed(db, t, AllOps(doc));
  }
}
