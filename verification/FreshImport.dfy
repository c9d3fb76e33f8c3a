// Importing a closed document into a tenant that has no rows: when it succeeds, and what an
// export of the result is.
module FreshImport {
  import opened Prelude
  import opened ConfigModel
  import opened ConfigImport
  import opened ChildTables
  import opened ConfigLaws
  import opened ImportRuns
  import opened ImportTheorems
  import opened RoundTrip

  ghost predicate NoRows(db: Tables, t: string) {
    && (forall k :: k in db.models ==> k.tenant != t)
    && (forall k :: k in db.servers ==> k.tenant != t)
    && (forall k :: k in db.agents ==> k.tenant != t)
    && (forall k :: k in db.schemas ==> k.tenant != t)
  }

  ghost predicate ModelNamed(doc: ConfigDoc, n: string) { exists m :: m in doc.models && m.name == n }

  ghost predicate ServerNamed(doc: ConfigDoc, n: string) { exists s :: s in doc.servers && s.name == n }

  ghost predicate AgentNamed(doc: ConfigDoc, n: string) { exists a :: a in doc.agents && a.name == n }

  // Every name the document refers to is one of its own items.
  ghost predicate DocClosed(doc: ConfigDoc) {
    && (forall a :: a in doc.agents ==> (a.modelName != "" ==> ModelNamed(doc, a.modelName)))
    && (forall a, n :: a in doc.agents && n in a.mcpServers ==> ServerNamed(doc, n))
    && (forall s :: s in doc.schemas ==> (s.entryAgent != "" ==> AgentNamed(doc, s.entryAgent)))
    && (forall s, r :: s in doc.schemas && r in s.relations ==> AgentNamed(doc, r.source) && AgentNamed(doc, r.target))
  }

  ghost predicate NoRepeatedRows(doc: ConfigDoc) {
    && (forall a :: a in doc.agents ==> Distinct(a.mcpServers))
    && (forall s :: s in doc.schemas ==> Distinct(s.relations))
  }

  // The conditions left for the importer to check.
  ghost predicate DocImportable(doc: ConfigDoc) {
    && (forall a :: a in doc.agents ==> ValidBudgets(Defaults(a.settings)) && Distinct(a.tools))
    && (forall s :: s in doc.schemas ==> s.name != "")
  }

  // ---- success ----

  lemma {:induction false} ValidFold(db: Tables, t: string, ops: seq<Op>)
    requires WellFormed(db) && forall op :: op in ops ==> Valid(db, t, op)
    ensures FoldSteps(Step(t), db, ops).Ok?
    decreases |ops|
  {
    if ops != [] {
      StepClosed(db, t, ops[0]);
      StepKeeps(db, t, ops[0]);
      var db1 := Apply(db, t, ops[0]).value;
      forall op | op in ops[1..] ensures Valid(db1, t, op) { ResolveExtends(db, db1, t, op); }
      ValidFold(db1, t, ops[1..]);
    }
  }

  // Schema steps come in pairs: the second is valid because the first made the row.
  lemma {:induction false} SchemaFold(db: Tables, t: string, items: seq<SchemaItem>)
    requires WellFormed(db) && forall s :: s in items ==> Valid(db, t, UpsertSchema(s))
    requires forall s :: s in items ==> Insertable(s.relations, RelationRows(db.agents, t))
    ensures FoldSteps(Step(t), db, SchemaOps(items)).Ok?
    decreases |items|
  {
    if items != [] {
      var s := items[0];
      StepClosed(db, t, UpsertSchema(s));
      StepKeeps(db, t, UpsertSchema(s));
      StepMakesReady(db, t, UpsertSchema(s));
      var db1 := Apply(db, t, UpsertSchema(s)).value;
      assert Key(t, s.name) in db1.schemas;
      SchemaStepKeepsAgents(db, db1, t, UpsertSchema(s));
      StepClosed(db1, t, ReplaceRelations(s));
      StepKeeps(db1, t, ReplaceRelations(s));
      var db2 := Apply(db1, t, ReplaceRelations(s)).value;
      SchemaStepKeepsAgents(db1, db2, t, ReplaceRelations(s));
      ExtendsTransitive(db, db1, db2);
      forall x | x in items[1..] ensures Valid(db2, t, UpsertSchema(x)) { ResolveExtends(db, db2, t, UpsertSchema(x)); }
      SchemaFold(db2, t, items[1..]);
      FoldAppend(Step(t), db, [UpsertSchema(s), ReplaceRelations(s)], SchemaOps(items[1..]));
      FoldTwo(db, t, UpsertSchema(s), ReplaceRelations(s));
    }
  }

  lemma SchemaStepKeepsAgents(db: Tables, db': Tables, t: string, op: Op)
    requires Apply(db, t, op) == Ok(db') && (op.UpsertSchema? || op.ReplaceRelations?)
    ensures db'.agents == db.agents
  {
  }

  lemma DistinctInsertable(names: seq<string>)
    ensures Insertable(names, ToolRows()) <==> Distinct(names)
  {
    if Insertable(names, ToolRows()) {
      forall i, j | 0 <= i < j < |names| ensures names[i] != names[j] {
        assert ToolRows()(names[i], i).value.0 != ToolRows()(names[j], j).value.0;
      }
    }
  }

  lemma LinksInsertable(db: Tables, t: string, names: seq<string>)
    requires WellFormed(db) && Distinct(names) && forall n :: n in names ==> Key(t, n) in db.servers
    ensures Insertable(names, LinkRows(db.servers, t))
  {
    IdsOfTables(db);
    forall i, j | 0 <= i < j < |names|
      ensures LinkRows(db.servers, t)(names[i], i).value.0 != LinkRows(db.servers, t)(names[j], j).value.0
    {
      assert Key(t, names[i]) != Key(t, names[j]);
    }
  }

  lemma RelationsInsertable(db: Tables, t: string, items: seq<RelationItem>)
    requires WellFormed(db) && Distinct(items)
    requires forall r :: r in items ==> Key(t, r.source) in db.agents && Key(t, r.target) in db.agents
    ensures Insertable(items, RelationRows(db.agents, t))
  {
    IdsOfTables(db);
    var f := RelationRows(db.agents, t);
    forall i | 0 <= i < |items| ensures f(items[i], i).Some? {
      assert items[i] in items;
    }
    forall i, j | 0 <= i < j < |items| ensures f(items[i], i).value.0 != f(items[j], j).value.0 {
      assert items[i] in items && items[j] in items;
      assert Key(t, items[i].source) != Key(t, items[j].source) || Key(t, items[i].target) != Key(t, items[j].target);
    }
  }

  // Appending a section whose steps are all valid where it starts.
  lemma NextSection(db: Tables, t: string, before: seq<Op>, ops: seq<Op>)
    requires WellFormed(db) && FoldSteps(Step(t), db, before).Ok?
    requires forall op :: op in ops ==> Valid(FoldSteps(Step(t), db, before).value, t, op)
    ensures FoldSteps(Step(t), db, before + ops).Ok?
    ensures WellFormed(FoldSteps(Step(t), db, before + ops).value)
    ensures IdsExtend(FoldSteps(Step(t), db, before).value, FoldSteps(Step(t), db, before + ops).value)
    ensures forall op :: op in ops ==> Ready(FoldSteps(Step(t), db, before + ops).value, t, op)
  {
    var s := FoldSteps(Step(t), db, before).value;
    FoldKeeps(db, t, before);
    ValidFold(s, t, ops);
    FoldKeeps(s, t, ops);
    FoldAppend(Step(t), db, before, ops);
  }

  ghost predicate HasAll(db: Tables, t: string, doc: ConfigDoc) {
    && (forall n :: ModelNamed(doc, n) ==> Key(t, n) in db.models)
    && (forall n :: ServerNamed(doc, n) ==> Key(t, n) in db.servers)
    && (forall n :: AgentNamed(doc, n) ==> Key(t, n) in db.agents)
  }

  // Models and servers are always valid; agents are once the models they name are there.
  lemma AgentSectionSucceeds(db: Tables, t: string, doc: ConfigDoc)
    requires WellFormed(db) && DocClosed(doc) && DocImportable(doc)
    ensures FoldSteps(Step(t), db, ModelOps(doc.models) + ServerOps(doc.servers) + AgentOps(doc.agents)).Ok?
  {
    var a, b, c := ModelOps(doc.models), ServerOps(doc.servers), AgentOps(doc.agents);
    assert [] + (a + b) == a + b;
    NextSection(db, t, [], a + b);
    var s := FoldSteps(Step(t), db, a + b).value;
    forall op | op in c ensures Valid(s, t, op) {
      var x := op.agent;
      assert x in doc.agents;
      if x.modelName != "" {
        var m :| m in doc.models && m.name == x.modelName;
        OpIn(doc, m);
        assert UpsertModel(m) in a + b;
        assert Ready(s, t, UpsertModel(m));
      }
    }
    NextSection(db, t, a + b, c);
  }

  lemma EntitySectionsSucceed(db: Tables, t: string, doc: ConfigDoc)
    requires WellFormed(db) && DocClosed(doc) && NoRepeatedRows(doc) && DocImportable(doc)
    ensures AtGate(db, t, doc).Ok? && WellFormed(AtGate(db, t, doc).value) && HasAll(AtGate(db, t, doc).value, t, doc)
  {
    var abc, d := ModelOps(doc.models) + ServerOps(doc.servers) + AgentOps(doc.agents), SyncOps(doc.agents);
    AgentSectionSucceeds(db, t, doc);
    FoldKeeps(db, t, abc);
    var s := FoldSteps(Step(t), db, abc).value;
    SectionsFilled(s, t, doc);
    forall op | op in d ensures Valid(s, t, op) { SyncValid(s, t, doc, op); }
    NextSection(db, t, abc, d);
  }

  lemma OpIn(doc: ConfigDoc, m: ModelItem)
    requires m in doc.models
    ensures UpsertModel(m) in ModelOps(doc.models)
  {
    var i :| 0 <= i < |doc.models| && doc.models[i] == m;
    assert ModelOps(doc.models)[i] == UpsertModel(m);
  }

  lemma SectionsFilled(db: Tables, t: string, doc: ConfigDoc)
    requires forall op :: op in ModelOps(doc.models) + ServerOps(doc.servers) + AgentOps(doc.agents) ==>
          Ready(db, t, op)
    ensures HasAll(db, t, doc)
  {
    var a, b, c := ModelOps(doc.models), ServerOps(doc.servers), AgentOps(doc.agents);
    forall n | ModelNamed(doc, n) ensures Key(t, n) in db.models {
      var i :| 0 <= i < |doc.models| && doc.models[i].name == n;
      assert (a + b + c)[i] == UpsertModel(doc.models[i]);
      assert Ready(db, t, UpsertModel(doc.models[i]));
    }
    forall n | ServerNamed(doc, n) ensures Key(t, n) in db.servers {
      var i :| 0 <= i < |doc.servers| && doc.servers[i].name == n;
      assert (a + b + c)[|a| + i] == UpsertServer(doc.servers[i]);
      assert Ready(db, t, UpsertServer(doc.servers[i]));
    }
    forall n | AgentNamed(doc, n) ensures Key(t, n) in db.agents {
      var i :| 0 <= i < |doc.agents| && doc.agents[i].name == n;
      assert (a + b + c)[|a| + |b| + i] == UpsertAgent(doc.agents[i]);
      assert Ready(db, t, UpsertAgent(doc.agents[i]));
    }
  }

  lemma SyncValid(db: Tables, t: string, doc: ConfigDoc, op: Op)
    requires WellFormed(db) && HasAll(db, t, doc) && op in SyncOps(doc.agents)
    requires DocClosed(doc) && NoRepeatedRows(doc) && DocImportable(doc)
    ensures Valid(db, t, op)
  {
    SyncOpsMembers(doc.agents, op);
    var i :| 0 <= i < |doc.agents| && (op == SyncTools(doc.agents[i]) || op == SyncLinks(doc.agents[i]));
    var x := doc.agents[i];
    assert AgentNamed(doc, x.name);
    if op.SyncTools? {
      DistinctInsertable(x.tools);
    } else {
      LinksInsertable(db, t, x.mcpServers);
    }
  }

  lemma SchemaSectionSucceeds(db: Tables, t: string, doc: ConfigDoc)
    requires WellFormed(db) && HasAll(db, t, doc) && DocClosed(doc) && NoRepeatedRows(doc) && DocImportable(doc)
    requires forall k :: k in db.schemas ==> k.tenant != t
    ensures FoldSteps(Step(t), db, SchemaOps(doc.schemas)).Ok?
  {
    forall s | s in doc.schemas ensures Insertable(s.relations, RelationRows(db.agents, t)) {
      RelationsInsertable(db, t, s.relations);
    }
    SchemaFold(db, t, doc.schemas);
  }

  lemma OpsWithin(doc: ConfigDoc)
    ensures forall a :: a in doc.agents ==>
          UpsertAgent(a) in AllOps(doc) && SyncTools(a) in AllOps(doc) && SyncLinks(a) in AllOps(doc)
    ensures forall m :: m in doc.models ==> UpsertModel(m) in AllOps(doc)
    ensures forall s :: s in doc.servers ==> UpsertServer(s) in AllOps(doc)
    ensures forall s :: s in doc.schemas ==> UpsertSchema(s) in AllOps(doc) && ReplaceRelations(s) in AllOps(doc)
  {
    forall op ensures op in AllOps(doc) <==> EntityOpOf(doc, op) || (op.UpsertSchema? && op.schema in doc.schemas)
                                             || (op.ReplaceRelations? && op.schema in doc.schemas)
    {
      AllOpsMembers(doc, op);
    }
  }

  lemma ReadyAgent(f: Tables, t: string, a: AgentItem)
    requires Ready(f, t, UpsertAgent(a)) && Ready(f, t, SyncTools(a))
    ensures ValidBudgets(Defaults(a.settings)) && Distinct(a.tools)
  {
    DistinctInsertable(a.tools);
  }

  lemma SuccessIsImportable(db: Tables, t: string, doc: ConfigDoc)
    requires WellFormed(db) && FoldSteps(Step(t), db, AllOps(doc)).Ok?
    ensures DocImportable(doc)
  {
    FoldKeeps(db, t, AllOps(doc));
    OpsWithin(doc);
    var f := FoldSteps(Step(t), db, AllOps(doc)).value;
    forall a | a in doc.agents ensures ValidBudgets(Defaults(a.settings)) && Distinct(a.tools) {
      ReadyAgent(f, t, a);
    }
    forall s | s in doc.schemas ensures s.name != "" {
      assert Ready(f, t, UpsertSchema(s));
    }
  }

  lemma FreshGate(db: Tables, t: string, doc: ConfigDoc)
    requires NoRows(db, t) && AtGate(db, t, doc).Ok? && forall s :: s in doc.schemas ==> s.name != ""
    ensures GateRequest(AtGate(db, t, doc).value, t, doc.schemas) == |doc.schemas|
    ensures forall k :: k in AtGate(db, t, doc).value.schemas ==> k.tenant != t
  {
    GateSchemas(db, t, doc);
    var s := AtGate(db, t, doc).value;
    GateRequestIs(s, t, doc.schemas);
    assert (set n | n in NameSet(doc.schemas) && Key(t, n) in s.schemas) == {};
  }

  // A closed document imports into an empty tenant exactly when its budgets are in range, no
  // agent repeats a tool, every schema has a name, and the guard admits all its schemas.
  // No reference can fail to resolve.
  lemma FreshImportSucceeds(db: Tables, t: string, doc: ConfigDoc, g: Guard)
    requires WellFormed(db) && NoRows(db, t) && DocClosed(doc) && NoRepeatedRows(doc)
    ensures Import(db, t, doc, g).Ok? <==> DocImportable(doc) && Admits(g, |doc.schemas|)
  {
    ImportIsFold(db, t, doc, g);
    if FoldSteps(Step(t), db, AllOps(doc)).Ok? {
      SuccessIsImportable(db, t, doc);
    }
    if DocImportable(doc) {
      EntitySectionsSucceed(db, t, doc);
      FreshGate(db, t, doc);
      SchemaSectionSucceeds(AtGate(db, t, doc).value, t, doc);
      FoldAppend(Step(t), db, EntityOps(doc), SchemaOps(doc.schemas));
    }
  }
}
