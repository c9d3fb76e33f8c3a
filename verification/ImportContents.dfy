// Which documents an import accepts and what a successful one stores: said of whole documents, repeated
// names included, in terms of the document and the tables before.
module ImportContents {
  import opened Prelude
  import opened ConfigModel
  import opened ConfigImport
  import opened ConfigLaws
  import opened ImportRuns
  import opened ImportTheorems
  import opened ImportColumns
  import opened ImportChildren

  // ---- whole documents ----

  predicate NamedModel(db: Tables, t: string, doc: ConfigDoc, n: string) {
    Key(t, n) in db.models || exists m :: m in doc.models && m.name == n
  }

  predicate NamedServer(db: Tables, t: string, doc: ConfigDoc, n: string) {
    Key(t, n) in db.servers || exists s :: s in doc.servers && s.name == n
  }

  predicate NamedAgent(db: Tables, t: string, doc: ConfigDoc, n: string) {
    Key(t, n) in db.agents || exists a :: a in doc.agents && a.name == n
  }

  // The document's agents are in budget, no list repeats a name, and every name it refers to is one of
  // its own or of the tenant's.
  ghost predicate AgentsFit(db: Tables, t: string, doc: ConfigDoc) {
    forall a :: a in doc.agents ==>
      && InBudget(a) && Distinct(a.tools) && Distinct(a.mcpServers)
      && (a.modelName != "" ==> NamedModel(db, t, doc, a.modelName))
      && forall n :: n in a.mcpServers ==> NamedServer(db, t, doc, n)
  }

  // Its schemas are named, are not system schemas, and refer to agents in the same way.
  ghost predicate SchemasFit(db: Tables, t: string, doc: ConfigDoc) {
    forall s :: s in doc.schemas ==>
      && s.name != "" && !(Key(t, s.name) in db.schemas && db.schemas[Key(t, s.name)].isSystem)
      && (s.entryAgent != "" ==> NamedAgent(db, t, doc, s.entryAgent))
      && Distinct(s.relations)
      && forall r :: r in s.relations ==> NamedAgent(db, t, doc, r.source) && NamedAgent(db, t, doc, r.target)
  }

  // The schema items less the names that the tenant has.
  function Asked(db: Tables, t: string, doc: ConfigDoc): int {
    |doc.schemas| - |set s | s in doc.schemas && Key(t, s.name) in db.schemas :: s.name|
  }

  // The guard, if there is one and something is asked for, is handed exactly that number.
  predicate GuardAdmits(g: Guard, asked: int) {
    match g
    case None => true
    case Some(admits) => asked <= 0 || admits(asked)
  }

  lemma {:induction false} ModelNamedByDoc(items: seq<ModelItem>, n: string)
    ensures LastModel(items, n).Some? <==> exists m :: m in items && m.name == n
  {
    if items != [] {
      ModelNamedByDoc(items[1..], n);
      assert items == [items[0]] + items[1..];
      if m :| m in items && m.name == n { assert m == items[0] || m in items[1..]; }
    }
  }

  lemma {:induction false} ServerNamedByDoc(items: seq<ServerItem>, n: string)
    ensures LastServer(items, n).Some? <==> exists s :: s in items && s.name == n
  {
    if items != [] {
      ServerNamedByDoc(items[1..], n);
      assert items == [items[0]] + items[1..];
      if s :| s in items && s.name == n { assert s == items[0] || s in items[1..]; }
    }
  }

  lemma {:induction false} AgentNamedByDoc(items: seq<AgentItem>, n: string)
    ensures LastAgent(items, n).Some? <==> exists a :: a in items && a.name == n
  {
    if items != [] {
      AgentNamedByDoc(items[1..], n);
      assert items == [items[0]] + items[1..];
      if a :| a in items && a.name == n { assert a == items[0] || a in items[1..]; }
    }
  }

  // The tables after models and servers, which are always written.
  function AfterServers(db: Tables, t: string, doc: ConfigDoc): Result<Tables, ImportError> {
    FoldSteps(Step(t), db, ModelOps(doc.models) + ServerOps(doc.servers))
  }

  lemma ServersCome(db: Tables, t: string, doc: ConfigDoc)
    requires WellFormed(db)
    ensures AfterServers(db, t, doc).Ok?
    ensures var s := AfterServers(db, t, doc).value;
            && WellFormed(s) && s == db.(models := s.models, servers := s.servers, nextId := s.nextId)
            && db.nextId <= s.nextId
            && (forall n :: Key(t, n) in s.models <==> NamedModel(db, t, doc, n))
            && (forall n :: Key(t, n) in s.servers <==> NamedServer(db, t, doc, n))
            && ModelsStored(db, s, t, doc.models)
            && (forall k: Key :: ServerColumns(db, s, k, ServerWords(doc.servers, t, k)))
  {
    FoldAppend(Step(t), db, ModelOps(doc.models), ServerOps(doc.servers));
    ModelSection(db, t, doc.models);
    var m := FoldSteps(Step(t), db, ModelOps(doc.models)).value;
    FoldKeeps(db, t, ModelOps(doc.models));
    ServerSection(m, t, doc.servers);
    FoldKeeps(m, t, ServerOps(doc.servers));
    var s := AfterServers(db, t, doc).value;
    forall k: Key ensures ServerColumns(db, s, k, ServerWords(doc.servers, t, k)) {
      assert ServerColumns(m, s, k, ServerWords(doc.servers, t, k));
    }
    forall n ensures Key(t, n) in s.models <==> NamedModel(db, t, doc, n) {
      assert ModelColumns(db, m, Key(t, n), ModelWord(doc.models, t, Key(t, n)));
      ModelNamedByDoc(doc.models, n);
    }
    forall n ensures Key(t, n) in s.servers <==> NamedServer(db, t, doc, n) {
      assert ServerColumns(db, s, Key(t, n), ServerWords(doc.servers, t, Key(t, n)));
      ServerNamedByDoc(doc.servers, n);
    }
  }

  lemma EntityFold(db: Tables, t: string, doc: ConfigDoc)
    requires WellFormed(db)
    ensures var s := AfterServers(db, t, doc);
            && s.Ok?
            && FoldSteps(Step(t), db, EntityOps(doc))
               == match FoldSteps(Step(t), s.value, AgentOps(doc.agents))
                  case Err(e) => Err(e)
                  case Ok(a) => FoldSteps(Step(t), a, SyncOps(doc.agents))
  {
    ServersCome(db, t, doc);
    var x := ModelOps(doc.models) + ServerOps(doc.servers);
    FoldAppend(Step(t), db, x, AgentOps(doc.agents));
    FoldAppend(Step(t), db, x + AgentOps(doc.agents), SyncOps(doc.agents));
  }

  lemma AgentsAccepted(db: Tables, t: string, doc: ConfigDoc)
    requires WellFormed(db)
    ensures FoldSteps(Step(t), db, EntityOps(doc)).Ok? <==> AgentsFit(db, t, doc)
  {
    EntityFold(db, t, doc);
    ServersCome(db, t, doc);
    var s := AfterServers(db, t, doc).value;
    AgentSectionAccepted(s, t, doc.agents);
    if FoldSteps(Step(t), s, AgentOps(doc.agents)).Ok? {
      var a := FoldSteps(Step(t), s, AgentOps(doc.agents)).value;
      AgentSection(s, t, doc.agents);
      FoldKeeps(s, t, AgentOps(doc.agents));
      SyncSectionAccepted(a, t, doc.agents);
      forall x | x in doc.agents ensures Key(t, x.name) in a.agents {
        AgentNamedByDoc(doc.agents, x.name);
        assert AgentStored(s, a, t, Key(t, x.name), AgentWord(doc.agents, t, Key(t, x.name)));
      }
    }
  }

  // Everything that the import stores before its schemas.
  ghost predicate EntitiesStored(db: Tables, f: Tables, t: string, doc: ConfigDoc) {
    && ModelsStored(db, f, t, doc.models) && ServersStored(db, f, t, doc.servers)
    && AgentsStored(db, f, t, doc.agents) && ChildrenStored(db, f, t, doc.agents)
  }

  lemma EntitiesCome(db: Tables, t: string, doc: ConfigDoc)
    requires WellFormed(db) && FoldSteps(Step(t), db, EntityOps(doc)).Ok?
    ensures var f := FoldSteps(Step(t), db, EntityOps(doc)).value;
            && WellFormed(f) && EntitiesStored(db, f, t, doc) && f.schemas == db.schemas
            && f.relations == db.relations && db.nextId <= f.nextId
            && forall n :: Key(t, n) in f.agents <==> NamedAgent(db, t, doc, n)
  {
    EntityFold(db, t, doc);
    ServersCome(db, t, doc);
    FoldKeeps(db, t, EntityOps(doc));
    var s := AfterServers(db, t, doc).value;
    AgentSection(s, t, doc.agents);
    FoldKeeps(s, t, AgentOps(doc.agents));
    var a := FoldSteps(Step(t), s, AgentOps(doc.agents)).value;
    SyncSection(a, t, doc.agents);
    var f := FoldSteps(Step(t), db, EntityOps(doc)).value;
    EntitiesChain(db, s, a, f, t, doc);
    forall n ensures Key(t, n) in f.agents <==> NamedAgent(db, t, doc, n) {
      AgentNamedByDoc(doc.agents, n);
      assert AgentStored(db, f, t, Key(t, n), AgentWord(doc.agents, t, Key(t, n)));
    }
  }

  lemma EntitiesChain(db: Tables, s: Tables, a: Tables, f: Tables, t: string, doc: ConfigDoc)
    requires s == db.(models := s.models, servers := s.servers, nextId := s.nextId) && db.nextId <= s.nextId
    requires a == s.(agents := a.agents, nextId := a.nextId) && f == a.(tools := f.tools, links := f.links)
    requires ModelsStored(db, s, t, doc.models)
    requires forall k: Key :: ServerColumns(db, s, k, ServerWords(doc.servers, t, k))
    requires AgentsStored(s, a, t, doc.agents) && ChildrenStored(a, f, t, doc.agents)
    ensures EntitiesStored(db, f, t, doc)
  {
    forall k: Key ensures ModelColumns(db, f, k, ModelWord(doc.models, t, k)) {
      assert ModelColumns(db, s, k, ModelWord(doc.models, t, k));
    }
    forall k: Key ensures ServerColumns(db, f, k, ServerWords(doc.servers, t, k)) {
      assert ServerColumns(db, s, k, ServerWords(doc.servers, t, k));
    }
    forall k: Key ensures AgentStored(db, f, t, k, AgentWord(doc.agents, t, k)) {
      assert AgentStored(s, a, t, k, AgentWord(doc.agents, t, k));
    }
  }

  lemma SchemasAccepted(db: Tables, g: Tables, t: string, doc: ConfigDoc)
    requires WellFormed(g) && g.schemas == db.schemas
    requires forall n :: Key(t, n) in g.agents <==> NamedAgent(db, t, doc, n)
    ensures FoldSteps(Step(t), g, SchemaOps(doc.schemas)).Ok? <==> SchemasFit(db, t, doc)
  {
    SchemaSectionAccepted(g, t, doc.schemas);
  }

  lemma AskedIsRequest(db: Tables, g: Tables, t: string, doc: ConfigDoc)
    requires g.schemas == db.schemas && forall s :: s in doc.schemas ==> s.name != ""
    ensures GateRequest(g, t, doc.schemas) == Asked(db, t, doc)
  {
    forall n | n in NameSet(doc.schemas) ensures n != "" {
      var i :| 0 <= i < |doc.schemas| && doc.schemas[i].name == n;
      assert doc.schemas[i] in doc.schemas;
    }
    GateRequestIs(g, t, doc.schemas);
    var a := set n | n in NameSet(doc.schemas) && Key(t, n) in g.schemas;
    var b := set s | s in doc.schemas && Key(t, s.name) in db.schemas :: s.name;
    forall n ensures n in a <==> n in b {
      if n in a {
        var i :| 0 <= i < |doc.schemas| && doc.schemas[i].name == n;
        assert doc.schemas[i] in doc.schemas;
      }
      if n in b {
        var s :| s in doc.schemas && Key(t, s.name) in db.schemas && s.name == n;
        var i :| 0 <= i < |doc.schemas| && doc.schemas[i] == s;
        assert doc.schemas[i].name in NameSet(doc.schemas);
      }
    }
    assert a == b;
  }

  lemma AskedOfNothing(db: Tables, t: string, doc: ConfigDoc)
    requires doc.schemas == []
    ensures Asked(db, t, doc) == 0
  {
    assert (set s | s in doc.schemas && Key(t, s.name) in db.schemas :: s.name) == {};
  }

  // A document is accepted, over any tables, exactly if its agents and schemas fit and the guard admits
  // the schemas that are to be created.
  lemma ImportAccepts(db: Tables, t: string, doc: ConfigDoc, g: Guard)
    requires WellFormed(db)
    ensures Import(db, t, doc, g).Ok?
       <==> AgentsFit(db, t, doc) && SchemasFit(db, t, doc) && GuardAdmits(g, Asked(db, t, doc))
  {
    AgentsAccepted(db, t, doc);
    if FoldSteps(Step(t), db, EntityOps(doc)).Ok? {
      var gate := FoldSteps(Step(t), db, EntityOps(doc)).value;
      EntitiesCome(db, t, doc);
      SchemasAccepted(db, gate, t, doc);
      if doc.schemas == [] {
        AskedOfNothing(db, t, doc);
      } else if SchemasFit(db, t, doc) {
        AskedIsRequest(db, gate, t, doc);
      }
    }
  }

  // And then every table holds, column by column, the document's last word or what it held before.
  lemma ImportStores(db: Tables, t: string, doc: ConfigDoc, g: Guard)
    requires WellFormed(db) && Import(db, t, doc, g).Ok?
    ensures EntitiesStored(db, Import(db, t, doc, g).value, t, doc)
    ensures SchemasStored(db, Import(db, t, doc, g).value, t, doc.schemas)
  {
    ImportIsFold(db, t, doc, g);
    EntitiesCome(db, t, doc);
    FoldAppend(Step(t), db, EntityOps(doc), SchemaOps(doc.schemas));
    var gate, f := FoldSteps(Step(t), db, EntityOps(doc)).value, Import(db, t, doc, g).value;
    SchemaSection(gate, t, doc.schemas);
    EntitiesKept(db, gate, f, t, doc);
    SchemasOver(db, gate, f, t, doc);
  }

  lemma EntitiesKept(db: Tables, gate: Tables, f: Tables, t: string, doc: ConfigDoc)
    requires EntitiesStored(db, gate, t, doc)
    requires f == gate.(schemas := f.schemas, relations := f.relations, nextId := f.nextId)
    ensures EntitiesStored(db, f, t, doc)
  {
    EntitiesSame(db, gate, f, t, doc);
    ChildrenSame(db, gate, f, t, doc.agents);
  }

  lemma EntitiesSame(db: Tables, gate: Tables, f: Tables, t: string, doc: ConfigDoc)
    requires EntitiesStored(db, gate, t, doc)
    requires f.models == gate.models && f.servers == gate.servers && f.agents == gate.agents
    ensures ModelsStored(db, f, t, doc.models) && ServersStored(db, f, t, doc.servers)
    ensures AgentsStored(db, f, t, doc.agents)
  {
    forall k: Key ensures ModelColumns(db, f, k, ModelWord(doc.models, t, k)) {
      assert ModelColumns(db, gate, k, ModelWord(doc.models, t, k));
    }
    forall k: Key ensures ServerColumns(db, f, k, ServerWords(doc.servers, t, k)) {
      assert ServerColumns(db, gate, k, ServerWords(doc.servers, t, k));
    }
    forall k: Key ensures AgentStored(db, f, t, k, AgentWord(doc.agents, t, k)) {
      assert AgentStored(db, gate, t, k, AgentWord(doc.agents, t, k));
    }
  }

  lemma ChildrenSame(db: Tables, gate: Tables, f: Tables, t: string, items: seq<AgentItem>)
    requires ChildrenStored(db, gate, t, items)
    requires f.agents == gate.agents && f.servers == gate.servers && f.tools == gate.tools && f.links == gate.links
    ensures ChildrenStored(db, f, t, items)
  {
    forall k | k in f.agents && AgentWord(items, t, k).Some?
      ensures var a := AgentWord(items, t, k).value;
              ToolsAre(f, t, f.agents[k].id, a.tools) && LinksAre(f, t, f.agents[k].id, a.mcpServers)
    {
      var a, id := AgentWord(items, t, k).value, f.agents[k].id;
      assert ToolsAre(gate, t, id, a.tools) && LinksAre(gate, t, id, a.mcpServers);
      SameKeepsTools(gate, f, t, id, a.tools);
      SameKeepsLinks(gate, f, t, id, a.mcpServers);
    }
    forall owner: nat | !OwnerNamed(f, t, items, owner)
      ensures SameRows(db.tools, f.tools, owner) && SameRows(db.links, f.links, owner)
    {
      assert !OwnerNamed(gate, t, items, owner);
    }
  }

  lemma SchemasOver(db: Tables, gate: Tables, f: Tables, t: string, doc: ConfigDoc)
    requires gate.schemas == db.schemas && gate.relations == db.relations && db.nextId <= gate.nextId
    requires SchemasStored(gate, f, t, doc.schemas)
    ensures SchemasStored(db, f, t, doc.schemas)
  {
    forall k: Key ensures SchemaStored(db, f, t, k, SchemaWord(doc.schemas, t, k)) {
      assert SchemaStored(gate, f, t, k, SchemaWord(doc.schemas, t, k));
    }
  }
}
