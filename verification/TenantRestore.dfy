// Importing a tenant's own export back into the same tenant: when it succeeds, and for each table
// exactly when it comes out as it was.
module TenantRestore {
  import opened Prelude
  import opened ConfigModel
  import opened ConfigImport
  import opened ChildTables
  import opened Writes
  import opened ConfigLaws
  import opened ImportRuns
  import opened ImportTheorems
  import opened SlotOutcomes
  import opened ConfigExport
  import opened SettledRows
  import opened RoundTrip
  import opened FreshImport
  import opened TenantMove

  // ---- tables as kinds of slots ----

  datatype Kind = Models | Servers | Agents | Schemas | Tools | Links | Relations

  function KindOf(s: Slot): Kind {
    match s
    case ModelSlot(_) => Models
    case ServerSlot(_) => Servers
    case AgentSlot(_) => Agents
    case SchemaSlot(_) => Schemas
    case ToolSlot(_) => Tools
    case LinkSlot(_) => Links
    case RelationSlot(_) => Relations
  }

  function KindOfOp(op: Op): Kind {
    match op
    case UpsertModel(_) => Models
    case UpsertServer(_) => Servers
    case UpsertAgent(_) => Agents
    case UpsertSchema(_) => Schemas
    case SyncTools(_) => Tools
    case SyncLinks(_) => Links
    case ReplaceRelations(_) => Relations
  }

  lemma TargetKind(db: Tables, t: string, op: Op)
    requires Valid(db, t, op)
    ensures KindOf(Target(Resolve(db, t, op))) == KindOfOp(op)
  {
  }

  ghost predicate SameKind(a: Tables, b: Tables, kind: Kind) {
    forall s :: KindOf(s) == kind ==> Look(a, s) == Look(b, s)
  }

  lemma ModelKind(a: Tables, b: Tables)
    ensures SameKind(a, b, Models) <==> a.models == b.models
  {
    if SameKind(a, b, Models) {
      forall k ensures (k in a.models <==> k in b.models) && (k in a.models ==> a.models[k] == b.models[k]) {
        assert Look(a, ModelSlot(k)) == Look(b, ModelSlot(k));
      }
    }
  }

  lemma ServerKind(a: Tables, b: Tables)
    ensures SameKind(a, b, Servers) <==> a.servers == b.servers
  {
    if SameKind(a, b, Servers) {
      forall k ensures (k in a.servers <==> k in b.servers) && (k in a.servers ==> a.servers[k] == b.servers[k]) {
        assert Look(a, ServerSlot(k)) == Look(b, ServerSlot(k));
      }
    }
  }

  lemma AgentKind(a: Tables, b: Tables)
    ensures SameKind(a, b, Agents) <==> a.agents == b.agents
  {
    if SameKind(a, b, Agents) {
      forall k ensures (k in a.agents <==> k in b.agents) && (k in a.agents ==> a.agents[k] == b.agents[k]) {
        assert Look(a, AgentSlot(k)) == Look(b, AgentSlot(k));
      }
    }
  }

  lemma SchemaKind(a: Tables, b: Tables)
    ensures SameKind(a, b, Schemas) <==> a.schemas == b.schemas
  {
    if SameKind(a, b, Schemas) {
      forall k ensures (k in a.schemas <==> k in b.schemas) && (k in a.schemas ==> a.schemas[k] == b.schemas[k]) {
        assert Look(a, SchemaSlot(k)) == Look(b, SchemaSlot(k));
      }
    }
  }

  lemma ToolKind(a: Tables, b: Tables)
    ensures SameKind(a, b, Tools) <==> a.tools == b.tools
  {
    if SameKind(a, b, Tools) {
      forall o ensures Group(a.tools, o) == Group(b.tools, o) { assert Look(a, ToolSlot(o)) == Look(b, ToolSlot(o)); }
      SameGroups(a.tools, b.tools);
    }
  }

  lemma LinkKind(a: Tables, b: Tables)
    ensures SameKind(a, b, Links) <==> a.links == b.links
  {
    if SameKind(a, b, Links) {
      forall o ensures Group(a.links, o) == Group(b.links, o) { assert Look(a, LinkSlot(o)) == Look(b, LinkSlot(o)); }
      SameGroups(a.links, b.links);
    }
  }

  lemma RelationKind(a: Tables, b: Tables)
    ensures SameKind(a, b, Relations) <==> a.relations == b.relations
  {
    if SameKind(a, b, Relations) {
      forall o ensures Group(a.relations, o) == Group(b.relations, o) {
        assert Look(a, RelationSlot(o)) == Look(b, RelationSlot(o));
      }
      SameGroups(a.relations, b.relations);
    }
  }

  // ---- the steps of an export find every row they write ----

  ghost predicate AllReady(db: Tables, t: string, doc: ConfigDoc) {
    forall op :: op in AllOps(doc) ==> Ready(db, t, op)
  }

  ghost predicate Present(db: Tables, t: string, op: Op) {
    match op
    case UpsertModel(m) => Key(t, m.name) in db.models
    case UpsertServer(s) => Key(t, s.name) in db.servers
    case UpsertAgent(a) => Key(t, a.name) in db.agents
    case SyncTools(a) => Key(t, a.name) in db.agents
    case SyncLinks(a) => Key(t, a.name) in db.agents
    case UpsertSchema(s) => Key(t, s.name) in db.schemas
    case ReplaceRelations(s) => Key(t, s.name) in db.schemas
  }

  lemma PresentReady(db: Tables, t: string, op: Op)
    requires Present(db, t, op) && Valid(db, t, op)
    ensures Ready(db, t, op)
  {
  }

  lemma PresentStays(b: Tables, a: Tables, t: string, op: Op)
    requires IdsExtend(b, a) && Present(b, t, op)
    ensures Present(a, t, op)
  {
  }

  lemma ExportPresent(db: Tables, t: string, doc: ConfigDoc, op: Op)
    requires IsExport(db, t, doc) && op in AllOps(doc)
    ensures Present(db, t, op)
  {
    AllOpsMembers(doc, op);
    match op
    case UpsertModel(m) => var i :| 0 <= i < |doc.models| && doc.models[i] == m;
    case UpsertServer(s) => var i :| 0 <= i < |doc.servers| && doc.servers[i] == s;
    case UpsertAgent(a) => ExportedAgent(db, t, doc, a);
    case SyncTools(a) => ExportedAgent(db, t, doc, a);
    case SyncLinks(a) => ExportedAgent(db, t, doc, a);
    case UpsertSchema(s) => ExportedSchema(db, t, doc, s);
    case ReplaceRelations(s) => ExportedSchema(db, t, doc, s);
  }

  // Steps that find their rows all succeed and hand out no id.
  lemma {:induction false} ReadyRun(db: Tables, t: string, ops: seq<Op>)
    requires WellFormed(db) && forall op :: op in ops ==> Ready(db, t, op)
    ensures FoldSteps(Step(t), db, ops).Ok? && FoldSteps(Step(t), db, ops).value.nextId == db.nextId
    decreases |ops|
  {
    if ops != [] {
      assert Ready(db, t, ops[0]);
      StepClosed(db, t, ops[0]);
      StepKeeps(db, t, ops[0]);
      DoNextId(db, Resolve(db, t, ops[0]));
      var db1 := Apply(db, t, ops[0]).value;
      forall op | op in ops[1..] ensures Ready(db1, t, op) { ReadyExtends(db, db1, t, op); }
      ReadyRun(db1, t, ops[1..]);
    }
  }

  // And if they all succeed, each could have been the first.
  lemma {:induction false} RunWasReady(db: Tables, t: string, ops: seq<Op>)
    requires WellFormed(db) && (forall op :: op in ops ==> Present(db, t, op)) && FoldSteps(Step(t), db, ops).Ok?
    ensures forall op :: op in ops ==> Ready(db, t, op)
    decreases |ops|
  {
    if ops != [] {
      var db1 := Apply(db, t, ops[0]).value;
      StepKeeps(db, t, ops[0]);
      PresentReady(db, t, ops[0]);
      ReadyStepKeepsIds(db, t, ops[0]);
      forall op | op in ops[1..] ensures Present(db1, t, op) { PresentStays(db, db1, t, op); }
      RunWasReady(db1, t, ops[1..]);
      forall op | op in ops ensures Ready(db, t, op) {
        if op != ops[0] {
          assert op in ops[1..];
          ReadyExtends(db1, db, t, op);
        }
      }
    }
  }

  lemma RunExactly(db: Tables, t: string, doc: ConfigDoc)
    requires WellFormed(db) && IsExport(db, t, doc)
    ensures FoldSteps(Step(t), db, AllOps(doc)).Ok? <==> AllReady(db, t, doc)
  {
    forall op | op in AllOps(doc) ensures Present(db, t, op) { ExportPresent(db, t, doc, op); }
    if AllReady(db, t, doc) { ReadyRun(db, t, AllOps(doc)); }
    if FoldSteps(Step(t), db, AllOps(doc)).Ok? { RunWasReady(db, t, AllOps(doc)); }
  }

  // ---- when they are all ready ----

  // Every name the document refers to is one of the tenant's rows, and no agent or schema refers to
  // the same row twice.
  ghost predicate Resolves(db: Tables, t: string, doc: ConfigDoc) {
    && (forall a :: a in doc.agents ==> AgentResolves(db, t, a))
    && (forall s :: s in doc.schemas ==> SchemaResolves(db, t, s))
  }

  ghost predicate AgentResolves(db: Tables, t: string, a: AgentItem) {
    && (a.modelName != "" ==> Key(t, a.modelName) in db.models)
    && Distinct(a.mcpServers) && forall n :: n in a.mcpServers ==> Key(t, n) in db.servers
  }

  ghost predicate SchemaResolves(db: Tables, t: string, s: SchemaItem) {
    && Distinct(s.relations)
    && forall r :: r in s.relations ==> Key(t, r.source) in db.agents && Key(t, r.target) in db.agents
  }

  lemma LinksInsertableIff(db: Tables, t: string, names: seq<string>)
    requires WellFormed(db)
    ensures Insertable(names, LinkRows(db.servers, t))
       <==> Distinct(names) && forall n :: n in names ==> Key(t, n) in db.servers
  {
    var r := LinkRows(db.servers, t);
    if Insertable(names, r) {
      forall n | n in names ensures Key(t, n) in db.servers {
        var i :| 0 <= i < |names| && names[i] == n;
        assert r(names[i], i).Some?;
      }
      forall i, j | 0 <= i < j < |names| ensures names[i] != names[j] {
        assert r(names[i], i).value.0 != r(names[j], j).value.0;
      }
    }
    if Distinct(names) && forall n :: n in names ==> Key(t, n) in db.servers { LinksInsertable(db, t, names); }
  }

  lemma RelationsInsertableIff(db: Tables, t: string, items: seq<RelationItem>)
    requires WellFormed(db)
    ensures Insertable(items, RelationRows(db.agents, t))
       <==> Distinct(items) && forall r :: r in items ==> Key(t, r.source) in db.agents && Key(t, r.target) in db.agents
  {
    var f := RelationRows(db.agents, t);
    if Insertable(items, f) {
      forall r | r in items ensures Key(t, r.source) in db.agents && Key(t, r.target) in db.agents {
        var i :| 0 <= i < |items| && items[i] == r;
        assert f(items[i], i).Some?;
      }
      forall i, j | 0 <= i < j < |items| ensures items[i] != items[j] {
        assert f(items[i], i).value.0 != f(items[j], j).value.0;
      }
    }
    if Distinct(items) && forall r :: r in items ==> Key(t, r.source) in db.agents && Key(t, r.target) in db.agents {
      RelationsInsertable(db, t, items);
    }
  }

  lemma AgentReady(db: Tables, t: string, a: AgentItem)
    requires WellFormed(db) && Key(t, a.name) in db.agents
    ensures Ready(db, t, UpsertAgent(a)) && Ready(db, t, SyncTools(a)) && Ready(db, t, SyncLinks(a))
       <==> ValidBudgets(Defaults(a.settings)) && Distinct(a.tools) && AgentResolves(db, t, a)
  {
    UpsertAgentReady(db, t, a);
    SyncReady(db, t, a);
  }

  lemma UpsertAgentReady(db: Tables, t: string, a: AgentItem)
    requires Key(t, a.name) in db.agents
    ensures Ready(db, t, UpsertAgent(a))
       <==> ValidBudgets(Defaults(a.settings)) && (a.modelName != "" ==> Key(t, a.modelName) in db.models)
  {
  }

  lemma SyncReady(db: Tables, t: string, a: AgentItem)
    requires WellFormed(db) && Key(t, a.name) in db.agents
    ensures Ready(db, t, SyncTools(a)) <==> Distinct(a.tools)
    ensures Ready(db, t, SyncLinks(a))
       <==> Distinct(a.mcpServers) && forall n :: n in a.mcpServers ==> Key(t, n) in db.servers
  {
    DistinctInsertable(a.tools);
    LinksInsertableIff(db, t, a.mcpServers);
    if Insertable(a.tools, ToolRows()) { PresentReady(db, t, SyncTools(a)); }
    if Insertable(a.mcpServers, LinkRows(db.servers, t)) { PresentReady(db, t, SyncLinks(a)); }
  }

  lemma SchemaReady(db: Tables, t: string, doc: ConfigDoc, s: SchemaItem)
    requires WellFormed(db) && IsExport(db, t, doc) && s in doc.schemas
    ensures Ready(db, t, UpsertSchema(s)) && Ready(db, t, ReplaceRelations(s))
       <==> s.name != "" && SchemaResolves(db, t, s)
  {
    ExportedSchema(db, t, doc, s);
    EntryResolves(db, t, db.schemas[Key(t, s.name)].entryAgentId, s.entryAgent);
    RelationsInsertableIff(db, t, s.relations);
  }

  ghost predicate ItemReady(db: Tables, t: string, doc: ConfigDoc) {
    && (forall a :: a in doc.agents ==>
          Ready(db, t, UpsertAgent(a)) && Ready(db, t, SyncTools(a)) && Ready(db, t, SyncLinks(a)))
    && (forall s :: s in doc.schemas ==> Ready(db, t, UpsertSchema(s)) && Ready(db, t, ReplaceRelations(s)))
  }

  lemma OneReady(db: Tables, t: string, doc: ConfigDoc, op: Op)
    requires IsExport(db, t, doc) && op in AllOps(doc) && ItemReady(db, t, doc)
    ensures Ready(db, t, op)
  {
    AllOpsMembers(doc, op);
    if op.UpsertModel? || op.UpsertServer? {
      ExportPresent(db, t, doc, op);
      PresentReady(db, t, op);
    }
  }

  lemma ReadyByItem(db: Tables, t: string, doc: ConfigDoc)
    requires IsExport(db, t, doc)
    ensures AllReady(db, t, doc) <==> ItemReady(db, t, doc)
  {
    OpsWithin(doc);
    if ItemReady(db, t, doc) {
      forall op | op in AllOps(doc) ensures Ready(db, t, op) { OneReady(db, t, doc, op); }
    }
  }

  lemma ReadyExactly(db: Tables, t: string, doc: ConfigDoc)
    requires WellFormed(db) && IsExport(db, t, doc)
    ensures AllReady(db, t, doc) <==> Importable(db, t) && Resolves(db, t, doc)
  {
    ExportImportable(db, t, doc);
    ReadyByItem(db, t, doc);
    forall a | a in doc.agents
      ensures Ready(db, t, UpsertAgent(a)) && Ready(db, t, SyncTools(a)) && Ready(db, t, SyncLinks(a))
         <==> ValidBudgets(Defaults(a.settings)) && Distinct(a.tools) && AgentResolves(db, t, a)
    {
      ExportedAgent(db, t, doc, a);
      AgentReady(db, t, a);
    }
    forall s | s in doc.schemas
      ensures Ready(db, t, UpsertSchema(s)) && Ready(db, t, ReplaceRelations(s))
         <==> s.name != "" && SchemaResolves(db, t, s)
    {
      SchemaReady(db, t, doc, s);
    }
  }

  // References that stay inside the tenant resolve.
  lemma InsideResolves(db: Tables, t: string, doc: ConfigDoc)
    requires WellFormed(db) && IsExport(db, t, doc) && NamesInside(db, t)
    ensures Resolves(db, t, doc)
  {
    ExportIsClosed(db, t, doc);
    ExportHasAll(db, t, doc);
  }

  lemma ExportHasAll(db: Tables, t: string, doc: ConfigDoc)
    requires IsExport(db, t, doc)
    ensures HasAll(db, t, doc)
  {
    forall m | m in doc.models ensures Key(t, m.name) in db.models {
      var i :| 0 <= i < |doc.models| && doc.models[i] == m;
    }
    forall s | s in doc.servers ensures Key(t, s.name) in db.servers {
      var i :| 0 <= i < |doc.servers| && doc.servers[i] == s;
    }
    forall a | a in doc.agents ensures Key(t, a.name) in db.agents { ExportedAgent(db, t, doc, a); }
  }

  // ---- a slot comes out as it was exactly if its step is settled ----

  lemma SlotKept(db: Tables, f: Tables, t: string, op: Op)
    requires WellFormed(db) && Ready(db, t, op) && IdsExtend(db, f) && Written(db, f, t, op)
    ensures var s := Target(Resolve(db, t, op));
            Resolve(f, t, op) == Resolve(db, t, op) && (Look(f, s) == Look(db, s) <==> Apply(db, t, op) == Ok(db))
  {
    ResolveExtends(db, f, t, op);
    StepClosed(db, t, op);
    WrittenBack(db, f, Resolve(db, t, op));
  }

  lemma WrittenBack(db: Tables, f: Tables, w: Write)
    requires Tidy(w) && Look(db, Target(w)) != Absent
    requires exists n: nat :: Look(f, Target(w)) == After(w, Look(db, Target(w)), n)
    ensures Look(f, Target(w)) == Look(db, Target(w)) <==> Do(db, w) == db
  {
    var s := Target(w);
    var n: nat :| Look(f, s) == After(w, Look(db, s), n);
    LookFits(db, s);
    AfterIgnoresNext(w, Look(db, s), n, db.nextId);
    DoMoves(db, w);
    assert ViewOf(Do(db, w)).look(s) == Look(Do(db, w), s) && ViewOf(db).look(s) == Look(db, s);
    if Look(f, s) == Look(db, s) { SameLooks(Do(db, w), db); }
  }

  // Where an import of a document without repeated names ends.
  ghost predicate Outcome(db: Tables, f: Tables, t: string, doc: ConfigDoc) {
    && IdsExtend(db, f)
    && (forall op :: op in AllOps(doc) ==> Written(db, f, t, op))
    && (forall s :: Untargeted(f, t, AllOps(doc), s) ==> Look(f, s) == Look(db, s))
  }

  ghost predicate KindSettled(db: Tables, t: string, doc: ConfigDoc, kind: Kind) {
    forall op :: op in AllOps(doc) && KindOfOp(op) == kind ==> Apply(db, t, op) == Ok(db)
  }

  lemma KindKept(db: Tables, f: Tables, t: string, doc: ConfigDoc, kind: Kind)
    requires WellFormed(db) && AllReady(db, t, doc) && Outcome(db, f, t, doc)
    ensures SameKind(f, db, kind) <==> KindSettled(db, t, doc, kind)
  {
    if SameKind(f, db, kind) {
      forall op | op in AllOps(doc) && KindOfOp(op) == kind ensures Apply(db, t, op) == Ok(db) {
        SlotKept(db, f, t, op);
        TargetKind(db, t, op);
      }
    }
    if KindSettled(db, t, doc, kind) {
      forall s | KindOf(s) == kind ensures Look(f, s) == Look(db, s) {
        if op :| op in AllOps(doc) && Target(Resolve(f, t, op)) == s {
          SlotKept(db, f, t, op);
          TargetKind(f, t, op);
        } else {
          assert Untargeted(f, t, AllOps(doc), s);
        }
      }
    }
  }

  // ---- which steps are settled ----

  lemma PlainKindsSettled(db: Tables, t: string, doc: ConfigDoc)
    requires IsExport(db, t, doc)
    ensures KindSettled(db, t, doc, Models) && KindSettled(db, t, doc, Servers)
  {
    forall op | op in AllOps(doc) && KindOfOp(op) in {Models, Servers} ensures Apply(db, t, op) == Ok(db) {
      AllOpsMembers(doc, op);
      if op.UpsertModel? { ModelSettled(db, t, op.model); } else { ServerSettled(db, t, op.server); }
    }
  }

  lemma AgentStepSettled(db: Tables, t: string, doc: ConfigDoc, a: AgentItem)
    requires WellFormed(db) && AgentsExported(db, t, doc.agents) && Importable(db, t) && a in doc.agents
    ensures Key(t, a.name) in db.agents
    ensures var k := Key(t, a.name);
            && (Apply(db, t, UpsertAgent(a)) == Ok(db) <==> AgentRowNormal(db, k) && ModelInside(db, t, k))
            && (Apply(db, t, SyncTools(a)) == Ok(db) <==> PlainTools(db.tools, db.agents[k].id))
            && (Apply(db, t, SyncLinks(a)) == Ok(db) <==> LinkedInside(db, t, db.agents[k].id))
  {
    ExportedAgent(db, t, doc, a);
    AgentSettled(db, t, Key(t, a.name), a);
    ToolsSettled(db, t, Key(t, a.name), a);
    LinksSettled(db, t, Key(t, a.name), a);
  }

  lemma SchemaStepSettled(db: Tables, t: string, doc: ConfigDoc, s: SchemaItem)
    requires WellFormed(db) && SchemasExported(db, t, doc.schemas) && Importable(db, t) && s in doc.schemas
    ensures Key(t, s.name) in db.schemas && !db.schemas[Key(t, s.name)].isSystem
    ensures var k := Key(t, s.name);
            && (Apply(db, t, UpsertSchema(s)) == Ok(db) <==> EntryNamed(db, k) && EntryInside(db, t, k))
            && (Apply(db, t, ReplaceRelations(s)) == Ok(db)
                <==> PlainRelations(db.relations, db.schemas[k].id) && RelatedInside(db, t, db.schemas[k].id))
  {
    ExportedSchema(db, t, doc, s);
    SchemaSettled(db, t, Key(t, s.name), s);
    RelationsSettled(db, t, Key(t, s.name), s);
  }

  // Something holds for every item's key exactly if it holds for every key, when the items are all.
  lemma ItemsAreKeys(keys: set<Key>, t: string, names: set<string>, good: iset<Key>)
    requires forall n :: n in names ==> Key(t, n) in keys
    requires forall k :: k in keys ==> k.tenant == t && k.name in names
    ensures (forall n :: n in names ==> Key(t, n) in good) <==> (forall k :: k in keys ==> k in good)
  {
    forall k | k in keys ensures k == Key(t, k.name) {}
    if forall k :: k in keys ==> k in good {
      forall n | n in names ensures Key(t, n) in good { assert Key(t, n) in keys; }
    }
  }

  function AgentNames(items: seq<AgentItem>): set<string> { set a | a in items :: a.name }

  function SchemaNames(items: seq<SchemaItem>): set<string> { set s | s in items :: s.name }

  function TenantAgents(db: Tables, t: string): set<Key> { set k | k in db.agents && k.tenant == t }

  function TenantSchemas(db: Tables, t: string): set<Key> {
    set k | k in db.schemas && k.tenant == t && !db.schemas[k].isSystem
  }

  lemma AgentsCovered(db: Tables, t: string, items: seq<AgentItem>)
    requires AgentsExported(db, t, items)
    ensures forall n :: n in AgentNames(items) ==> Key(t, n) in TenantAgents(db, t)
    ensures forall k :: k in TenantAgents(db, t) ==> k.name in AgentNames(items)
  {
    forall k | k in TenantAgents(db, t) ensures k.name in AgentNames(items) {
      var i :| 0 <= i < |items| && items[i].name == k.name;
      assert items[i] in items;
    }
  }

  lemma SchemasCovered(db: Tables, t: string, items: seq<SchemaItem>)
    requires SchemasExported(db, t, items)
    ensures forall n :: n in SchemaNames(items) ==> Key(t, n) in TenantSchemas(db, t)
    ensures forall k :: k in TenantSchemas(db, t) ==> k.name in SchemaNames(items)
  {
    forall k | k in TenantSchemas(db, t) ensures k.name in SchemaNames(items) {
      var i :| 0 <= i < |items| && items[i].name == k.name;
      assert items[i] in items;
    }
  }

  // The steps of a kind, read off the document.
  lemma KindSteps(db: Tables, t: string, doc: ConfigDoc)
    ensures KindSettled(db, t, doc, Agents) <==> forall a :: a in doc.agents ==> Apply(db, t, UpsertAgent(a)) == Ok(db)
    ensures KindSettled(db, t, doc, Tools) <==> forall a :: a in doc.agents ==> Apply(db, t, SyncTools(a)) == Ok(db)
    ensures KindSettled(db, t, doc, Links) <==> forall a :: a in doc.agents ==> Apply(db, t, SyncLinks(a)) == Ok(db)
    ensures KindSettled(db, t, doc, Schemas)
          <==> forall s :: s in doc.schemas ==> Apply(db, t, UpsertSchema(s)) == Ok(db)
    ensures KindSettled(db, t, doc, Relations)
          <==> forall s :: s in doc.schemas ==> Apply(db, t, ReplaceRelations(s)) == Ok(db)
  {
    forall op | op in AllOps(doc)
      ensures op.UpsertAgent? || op.SyncTools? || op.SyncLinks? ==> op.agent in doc.agents
      ensures op.UpsertSchema? || op.ReplaceRelations? ==> op.schema in doc.schemas
    {
      AllOpsMembers(doc, op);
    }
    OpsWithin(doc);
    var settled := iset op | Apply(db, t, op) == Ok(db);
    AgentSteps(doc, settled);
    ToolSteps(doc, settled);
    LinkSteps(doc, settled);
    SchemaSteps(doc, settled);
    RelationSteps(doc, settled);
  }

  lemma AgentSteps(doc: ConfigDoc, settled: iset<Op>)
    requires forall op :: op in AllOps(doc) && op.UpsertAgent? ==> op.agent in doc.agents
    requires forall a :: a in doc.agents ==> UpsertAgent(a) in AllOps(doc)
    ensures OfKindIn(doc, Agents, settled) <==> forall a :: a in doc.agents ==> UpsertAgent(a) in settled
  {
    if forall a :: a in doc.agents ==> UpsertAgent(a) in settled {
      forall op | op in AllOps(doc) && KindOfOp(op) == Agents ensures op in settled {
        assert op == UpsertAgent(op.agent);
      }
    }
  }

  lemma ToolSteps(doc: ConfigDoc, settled: iset<Op>)
    requires forall op :: op in AllOps(doc) && op.SyncTools? ==> op.agent in doc.agents
    requires forall a :: a in doc.agents ==> SyncTools(a) in AllOps(doc)
    ensures OfKindIn(doc, Tools, settled) <==> forall a :: a in doc.agents ==> SyncTools(a) in settled
  {
    if forall a :: a in doc.agents ==> SyncTools(a) in settled {
      forall op | op in AllOps(doc) && KindOfOp(op) == Tools ensures op in settled {
        assert op == SyncTools(op.agent);
      }
    }
  }

  lemma LinkSteps(doc: ConfigDoc, settled: iset<Op>)
    requires forall op :: op in AllOps(doc) && op.SyncLinks? ==> op.agent in doc.agents
    requires forall a :: a in doc.agents ==> SyncLinks(a) in AllOps(doc)
    ensures OfKindIn(doc, Links, settled) <==> forall a :: a in doc.agents ==> SyncLinks(a) in settled
  {
    if forall a :: a in doc.agents ==> SyncLinks(a) in settled {
      forall op | op in AllOps(doc) && KindOfOp(op) == Links ensures op in settled {
        assert op == SyncLinks(op.agent);
      }
    }
  }

  lemma SchemaSteps(doc: ConfigDoc, settled: iset<Op>)
    requires forall op :: op in AllOps(doc) && op.UpsertSchema? ==> op.schema in doc.schemas
    requires forall s :: s in doc.schemas ==> UpsertSchema(s) in AllOps(doc)
    ensures OfKindIn(doc, Schemas, settled) <==> forall s :: s in doc.schemas ==> UpsertSchema(s) in settled
  {
    if forall s :: s in doc.schemas ==> UpsertSchema(s) in settled {
      forall op | op in AllOps(doc) && KindOfOp(op) == Schemas ensures op in settled {
        assert op == UpsertSchema(op.schema);
      }
    }
  }

  lemma RelationSteps(doc: ConfigDoc, settled: iset<Op>)
    requires forall op :: op in AllOps(doc) && op.ReplaceRelations? ==> op.schema in doc.schemas
    requires forall s :: s in doc.schemas ==> ReplaceRelations(s) in AllOps(doc)
    ensures OfKindIn(doc, Relations, settled) <==> forall s :: s in doc.schemas ==> ReplaceRelations(s) in settled
  {
    if forall s :: s in doc.schemas ==> ReplaceRelations(s) in settled {
      forall op | op in AllOps(doc) && KindOfOp(op) == Relations ensures op in settled {
        assert op == ReplaceRelations(op.schema);
      }
    }
  }

  ghost predicate OfKindIn(doc: ConfigDoc, kind: Kind, settled: iset<Op>) {
    forall op :: op in AllOps(doc) && KindOfOp(op) == kind ==> op in settled
  }

  // All items' steps are settled exactly if all the tenant's rows are good.
  lemma AgentsByItem(db: Tables, t: string, items: seq<AgentItem>, settled: iset<AgentItem>, good: iset<Key>)
    requires AgentsExported(db, t, items) && forall a :: a in items ==> (a in settled <==> Key(t, a.name) in good)
    ensures (forall a :: a in items ==> a in settled) <==> (forall k :: k in TenantAgents(db, t) ==> k in good)
  {
    AgentsCovered(db, t, items);
    ItemsAreKeys(TenantAgents(db, t), t, AgentNames(items), good);
    assert (forall a :: a in items ==> a in settled) <==> (forall n :: n in AgentNames(items) ==> Key(t, n) in good);
  }

  lemma AgentRowsSettled(db: Tables, t: string, doc: ConfigDoc)
    requires WellFormed(db) && AgentsExported(db, t, doc.agents) && Importable(db, t)
    ensures KindSettled(db, t, doc, Agents) <==> AgentsNormal(db, t) && ModelsInside(db, t)
  {
    KindSteps(db, t, doc);
    var good := iset k | k in db.agents && AgentRowNormal(db, k) && ModelInside(db, t, k);
    forall a | a in doc.agents ensures Apply(db, t, UpsertAgent(a)) == Ok(db) <==> Key(t, a.name) in good {
      AgentStepSettled(db, t, doc, a);
    }
    AgentsByItem(db, t, doc.agents, (iset a | Apply(db, t, UpsertAgent(a)) == Ok(db)), good);
    NormalAgents(db, t, good);
  }

  lemma NormalAgents(db: Tables, t: string, good: iset<Key>)
    requires good == iset k | k in db.agents && AgentRowNormal(db, k) && ModelInside(db, t, k)
    ensures (forall k :: k in TenantAgents(db, t) ==> k in good) <==> AgentsNormal(db, t) && ModelsInside(db, t)
  {
    forall k ensures k in TenantAgents(db, t) <==> k in db.agents && k.tenant == t {}
  }

  lemma NormalTools(db: Tables, t: string, good: iset<Key>)
    requires good == iset k | k in db.agents && PlainTools(db.tools, db.agents[k].id)
    ensures (forall k :: k in TenantAgents(db, t) ==> k in good) <==> ToolsNormal(db, t)
  {
    forall k ensures k in TenantAgents(db, t) <==> k in db.agents && k.tenant == t {}
  }

  lemma InsideLinks(db: Tables, t: string, good: iset<Key>)
    requires good == iset k | k in db.agents && LinkedInside(db, t, db.agents[k].id)
    ensures (forall k :: k in TenantAgents(db, t) ==> k in good) <==> LinksInside(db, t)
  {
    forall k ensures k in TenantAgents(db, t) <==> k in db.agents && k.tenant == t {}
  }

  lemma AgentToolsSettled(db: Tables, t: string, doc: ConfigDoc)
    requires WellFormed(db) && AgentsExported(db, t, doc.agents) && Importable(db, t)
    ensures KindSettled(db, t, doc, Tools) <==> ToolsNormal(db, t)
  {
    KindSteps(db, t, doc);
    var good := iset k | k in db.agents && PlainTools(db.tools, db.agents[k].id);
    forall a | a in doc.agents ensures Apply(db, t, SyncTools(a)) == Ok(db) <==> Key(t, a.name) in good {
      AgentStepSettled(db, t, doc, a);
    }
    AgentsByItem(db, t, doc.agents, (iset a | Apply(db, t, SyncTools(a)) == Ok(db)), good);
    NormalTools(db, t, good);
  }

  lemma AgentLinksSettled(db: Tables, t: string, doc: ConfigDoc)
    requires WellFormed(db) && AgentsExported(db, t, doc.agents) && Importable(db, t)
    ensures KindSettled(db, t, doc, Links) <==> LinksInside(db, t)
  {
    KindSteps(db, t, doc);
    var good := iset k | k in db.agents && LinkedInside(db, t, db.agents[k].id);
    forall a | a in doc.agents ensures Apply(db, t, SyncLinks(a)) == Ok(db) <==> Key(t, a.name) in good {
      AgentStepSettled(db, t, doc, a);
    }
    AgentsByItem(db, t, doc.agents, (iset a | Apply(db, t, SyncLinks(a)) == Ok(db)), good);
    InsideLinks(db, t, good);
  }

  lemma SchemasByItem(db: Tables, t: string, items: seq<SchemaItem>, settled: iset<SchemaItem>, good: iset<Key>)
    requires SchemasExported(db, t, items) && forall s :: s in items ==> (s in settled <==> Key(t, s.name) in good)
    ensures (forall s :: s in items ==> s in settled) <==> (forall k :: k in TenantSchemas(db, t) ==> k in good)
  {
    SchemasCovered(db, t, items);
    ItemsAreKeys(TenantSchemas(db, t), t, SchemaNames(items), good);
    assert (forall s :: s in items ==> s in settled) <==> (forall n :: n in SchemaNames(items) ==> Key(t, n) in good);
  }

  lemma NormalSchemas(db: Tables, t: string, good: iset<Key>)
    requires good == iset k | k in db.schemas && EntryNamed(db, k) && EntryInside(db, t, k)
    ensures (forall k :: k in TenantSchemas(db, t) ==> k in good) <==> SchemasNormal(db, t) && EntriesInside(db, t)
  {
    forall k ensures k in TenantSchemas(db, t) <==> k in db.schemas && k.tenant == t && !db.schemas[k].isSystem {}
  }

  lemma NormalRelations(db: Tables, t: string, good: iset<Key>)
    requires good == iset k | k in db.schemas && PlainRelations(db.relations, db.schemas[k].id)
                              && RelatedInside(db, t, db.schemas[k].id)
    ensures (forall k :: k in TenantSchemas(db, t) ==> k in good)
       <==> RelationsNormal(db, t) && RelationsInside(db, t)
  {
    forall k ensures k in TenantSchemas(db, t) <==> k in db.schemas && k.tenant == t && !db.schemas[k].isSystem {}
  }

  lemma SchemaRowsSettled(db: Tables, t: string, doc: ConfigDoc)
    requires WellFormed(db) && SchemasExported(db, t, doc.schemas) && Importable(db, t)
    ensures KindSettled(db, t, doc, Schemas) <==> SchemasNormal(db, t) && EntriesInside(db, t)
  {
    KindSteps(db, t, doc);
    var good := iset k | k in db.schemas && EntryNamed(db, k) && EntryInside(db, t, k);
    forall s | s in doc.schemas ensures Apply(db, t, UpsertSchema(s)) == Ok(db) <==> Key(t, s.name) in good {
      SchemaStepSettled(db, t, doc, s);
    }
    SchemasByItem(db, t, doc.schemas, (iset s | Apply(db, t, UpsertSchema(s)) == Ok(db)), good);
    NormalSchemas(db, t, good);
  }

  lemma SchemaRelationsSettled(db: Tables, t: string, doc: ConfigDoc)
    requires WellFormed(db) && SchemasExported(db, t, doc.schemas) && Importable(db, t)
    ensures KindSettled(db, t, doc, Relations) <==> RelationsNormal(db, t) && RelationsInside(db, t)
  {
    KindSteps(db, t, doc);
    var good := iset k | k in db.schemas && PlainRelations(db.relations, db.schemas[k].id)
                         && RelatedInside(db, t, db.schemas[k].id);
    forall s | s in doc.schemas ensures Apply(db, t, ReplaceRelations(s)) == Ok(db) <==> Key(t, s.name) in good {
      SchemaStepSettled(db, t, doc, s);
    }
    SchemasByItem(db, t, doc.schemas, (iset s | Apply(db, t, ReplaceRelations(s)) == Ok(db)), good);
    NormalRelations(db, t, good);
  }

  // ---- when the same relations are there as before ----

  lemma ListedKeysOne(db: Tables, t: string, id: nat, items: seq<RelationItem>, arrows: seq<Arrow>, c: Child<Arrow>)
    requires Lists(arrows, OwnedKeys(db.relations, id)) && |items| == |arrows|
    requires Insertable(items, RelationRows(db.agents, t))
    requires forall i :: 0 <= i < |arrows| ==> Child(id, arrows[i]) in db.relations
    requires forall i :: 0 <= i < |arrows| ==> RelationRows(db.agents, t)(items[i], i) == Some((arrows[i], EMPTY_JSON))
    ensures c in Rows(id, t, items, RelationRows(db.agents, t)) <==> c in Group(db.relations, id)
  {
    RowsAt(id, t, items, RelationRows(db.agents, t));
    if c in Rows(id, t, items, RelationRows(db.agents, t)) {
      var j :| 0 <= j < |items| && c == Child(id, RelationRows(db.agents, t)(items[j], j).value.0);
      assert c == Child(id, arrows[j]);
    }
    if c in Group(db.relations, id) {
      AllListed(db.relations, id, arrows);
      var j :| 0 <= j < |arrows| && c == Child(id, arrows[j]);
      assert RelationRows(db.agents, t)(items[j], j) == Some((arrows[j], EMPTY_JSON));
    }
  }

  lemma ListedKeys(db: Tables, t: string, id: nat, items: seq<RelationItem>)
    requires WellFormed(db) && RelatedInside(db, t, id) && SameTenant(db.relations, id, t)
    requires RelationsListed(db, t, id, items)
    requires Insertable(items, RelationRows(db.agents, t))
    ensures Rows(id, t, items, RelationRows(db.agents, t)).Keys == Group(db.relations, id).Keys
  {
    var arrows: seq<Arrow> :| ArrowsListed(db, t, id, arrows, items);
    TenantKeysAll(db.relations, id, t);
    ArrowsResolve(db, t, id, arrows, items);
    forall c: Child<Arrow>
      ensures c in Rows(id, t, items, RelationRows(db.agents, t)) <==> c in Group(db.relations, id)
    {
      ListedKeysOne(db, t, id, items, arrows, c);
    }
  }

  lemma ListedKeysIff(db: Tables, t: string, id: nat, items: seq<RelationItem>)
    requires WellFormed(db) && SameTenant(db.relations, id, t) && RelationsListed(db, t, id, items)
    requires Insertable(items, RelationRows(db.agents, t))
    ensures Rows(id, t, items, RelationRows(db.agents, t)).Keys == Group(db.relations, id).Keys
       <==> RelatedInside(db, t, id)
  {
    if RelatedInside(db, t, id) { ListedKeys(db, t, id, items); }
    if Rows(id, t, items, RelationRows(db.agents, t)).Keys == Group(db.relations, id).Keys {
      forall c | c in db.relations && c.owner == id
        ensures HasAgent(db, t, c.key.source) && HasAgent(db, t, c.key.target)
      {
        assert c in Group(db.relations, id).Keys;
        RelationRowsInside(db, t, id, items, c);
      }
    }
  }

  lemma RelationRowsKept(db: Tables, f: Tables, t: string, doc: ConfigDoc, s: SchemaItem)
    requires WellFormed(db) && SchemasExported(db, t, doc.schemas) && s in doc.schemas
    requires IdsExtend(db, f) && Ready(db, t, ReplaceRelations(s)) && Written(db, f, t, ReplaceRelations(s))
    ensures Key(t, s.name) in db.schemas
    ensures var id := db.schemas[Key(t, s.name)].id;
            && Target(Resolve(f, t, ReplaceRelations(s))) == RelationSlot(id)
            && (Group(f.relations, id).Keys == Group(db.relations, id).Keys <==> RelatedInside(db, t, id))
  {
    var id := db.schemas[Key(t, s.name)].id;
    SlotKept(db, f, t, ReplaceRelations(s));
    ExportedSchema(db, t, doc, s);
    ListedKeysIff(db, t, id, s.relations);
  }

  lemma RelationGroupKept(db: Tables, f: Tables, t: string, doc: ConfigDoc, owner: nat)
    requires WellFormed(db) && RelationsInside(db, t) && SchemasExported(db, t, doc.schemas)
    requires AllReady(db, t, doc) && Outcome(db, f, t, doc)
    ensures Group(f.relations, owner).Keys == Group(db.relations, owner).Keys
  {
    if op :| op in AllOps(doc) && Target(Resolve(f, t, op)) == RelationSlot(owner) {
      TargetKind(f, t, op);
      AllOpsMembers(doc, op);
      RelationRowsKept(db, f, t, doc, op.schema);
      ExportedSchema(db, t, doc, op.schema);
    } else {
      assert Untargeted(f, t, AllOps(doc), RelationSlot(owner));
      assert Look(f, RelationSlot(owner)) == Look(db, RelationSlot(owner));
    }
  }

  // A schema of the tenant whose relations lead outside loses one.
  lemma OutsideRelationLost(db: Tables, f: Tables, t: string, doc: ConfigDoc, k: Key)
    requires WellFormed(db) && SchemasExported(db, t, doc.schemas)
    requires AllReady(db, t, doc) && Outcome(db, f, t, doc)
    requires k in db.schemas && k.tenant == t && !db.schemas[k].isSystem && !RelatedInside(db, t, db.schemas[k].id)
    ensures f.relations.Keys != db.relations.Keys
  {
    var i :| 0 <= i < |doc.schemas| && doc.schemas[i].name == k.name;
    var s := doc.schemas[i];
    assert s in doc.schemas && k == Key(t, s.name);
    OpsWithin(doc);
    RelationRowsKept(db, f, t, doc, s);
    if f.relations.Keys == db.relations.Keys { KeysOfGroups(f.relations, db.relations, db.schemas[k].id); }
  }

  lemma InsideRelationsKept(db: Tables, f: Tables, t: string, doc: ConfigDoc)
    requires WellFormed(db) && RelationsInside(db, t) && SchemasExported(db, t, doc.schemas)
    requires AllReady(db, t, doc) && Outcome(db, f, t, doc)
    ensures f.relations.Keys == db.relations.Keys
  {
    forall owner ensures Group(f.relations, owner).Keys == Group(db.relations, owner).Keys {
      RelationGroupKept(db, f, t, doc, owner);
    }
    GroupKeys(f.relations, db.relations);
  }

  lemma RelationKeysKept(db: Tables, f: Tables, t: string, doc: ConfigDoc)
    requires WellFormed(db) && SchemasExported(db, t, doc.schemas)
    requires AllReady(db, t, doc) && Outcome(db, f, t, doc)
    ensures f.relations.Keys == db.relations.Keys <==> RelationsInside(db, t)
  {
    if RelationsInside(db, t) {
      InsideRelationsKept(db, f, t, doc);
    } else {
      var k :| k in db.schemas && k.tenant == t && !db.schemas[k].isSystem && !RelatedInside(db, t, db.schemas[k].id);
      OutsideRelationLost(db, f, t, doc, k);
    }
  }

  lemma KeysOfGroups<K, V>(a: ChildTable<K, V>, b: ChildTable<K, V>, owner: nat)
    requires a.Keys == b.Keys
    ensures Group(a, owner).Keys == Group(b, owner).Keys
  {
    forall c ensures c in Group(a, owner) <==> c in Group(b, owner) {
      assert c in a <==> c in a.Keys;
      assert c in b <==> c in b.Keys;
    }
  }

  lemma GroupKeys<K, V>(a: ChildTable<K, V>, b: ChildTable<K, V>)
    requires forall owner :: Group(a, owner).Keys == Group(b, owner).Keys
    ensures a.Keys == b.Keys
  {
    forall c ensures c in a <==> c in b {
      assert c in a <==> c in Group(a, c.owner).Keys;
      assert c in b <==> c in Group(b, c.owner).Keys;
    }
  }

  // ---- the theorems ----

  lemma ImportOutcome(db: Tables, t: string, doc: ConfigDoc, g: Guard)
    requires WellFormed(db) && IsExport(db, t, doc)
    ensures Import(db, t, doc, g).Ok? <==> AllReady(db, t, doc)
    ensures AllReady(db, t, doc) ==>
              Outcome(db, Import(db, t, doc, g).value, t, doc) && Import(db, t, doc, g).value.nextId == db.nextId
  {
    ImportIsFold(db, t, doc, g);
    RunExactly(db, t, doc);
    if AllReady(db, t, doc) {
      ReadyRun(db, t, AllOps(doc));
      GateStaysShut(db, t, doc);
      ExportDistinct(db, t, doc);
      AllOpsDistinct(doc);
      DistinctRun(db, t, AllOps(doc));
    }
  }

  // At the gate the schema table is the one that was exported, so no creation is asked for.
  lemma GateStaysShut(db: Tables, t: string, doc: ConfigDoc)
    requires IsExport(db, t, doc) && AtGate(db, t, doc).Ok?
    ensures GateRequest(AtGate(db, t, doc).value, t, doc.schemas) <= 0
  {
    GateSchemas(db, t, doc);
    NothingToAdmit(db, t, doc);
    SameGate(AtGate(db, t, doc).value, db, t, doc.schemas);
  }

  lemma SameGate(a: Tables, b: Tables, t: string, items: seq<SchemaItem>)
    requires a.schemas == b.schemas
    ensures GateRequest(a, t, items) == GateRequest(b, t, items)
  {
    assert ExistingNames(a, t, items) == ExistingNames(b, t, items);
  }

  // Importing a tenant's own export succeeds, whatever the guard, exactly if the tenant's rows are
  // importable and the names the document refers to resolve.  Then models and servers, unexported
  // columns included, are what they were, and so is every other table whose rows are in normal form
  // and lead to rows of the tenant, and no other.
  lemma RestoreTenant(db: Tables, t: string, doc: ConfigDoc, g: Guard)
    requires WellFormed(db) && IsExport(db, t, doc)
    ensures Import(db, t, doc, g).Ok? <==> Importable(db, t) && Resolves(db, t, doc)
    ensures Import(db, t, doc, g).Ok? ==>
              var f := Import(db, t, doc, g).value;
              && f.models == db.models && f.servers == db.servers && f.nextId == db.nextId
              && (f.agents == db.agents <==> AgentsNormal(db, t) && ModelsInside(db, t))
              && (f.tools == db.tools <==> ToolsNormal(db, t))
              && (f.links == db.links <==> LinksInside(db, t))
              && (f.schemas == db.schemas <==> SchemasNormal(db, t) && EntriesInside(db, t))
              && (f.relations == db.relations <==> RelationsNormal(db, t) && RelationsInside(db, t))
              && (f.relations.Keys == db.relations.Keys <==> RelationsInside(db, t))
  {
    ImportOutcome(db, t, doc, g);
    ReadyExactly(db, t, doc);
    if AllReady(db, t, doc) {
      var f := Import(db, t, doc, g).value;
      KeptTables(db, f, t, doc);
      RelationKeysKept(db, f, t, doc);
    }
  }

  lemma KeptTables(db: Tables, f: Tables, t: string, doc: ConfigDoc)
    requires WellFormed(db) && IsExport(db, t, doc) && Importable(db, t)
    requires AllReady(db, t, doc) && Outcome(db, f, t, doc)
    ensures f.models == db.models && f.servers == db.servers
    ensures f.agents == db.agents <==> AgentsNormal(db, t) && ModelsInside(db, t)
    ensures f.tools == db.tools <==> ToolsNormal(db, t)
    ensures f.links == db.links <==> LinksInside(db, t)
    ensures f.schemas == db.schemas <==> SchemasNormal(db, t) && EntriesInside(db, t)
    ensures f.relations == db.relations <==> RelationsNormal(db, t) && RelationsInside(db, t)
  {
    forall kind ensures SameKind(f, db, kind) <==> KindSettled(db, t, doc, kind) { KindKept(db, f, t, doc, kind); }
    PlainKindsSettled(db, t, doc);
    AgentRowsSettled(db, t, doc);
    AgentToolsSettled(db, t, doc);
    AgentLinksSettled(db, t, doc);
    SchemaRowsSettled(db, t, doc);
    SchemaRelationsSettled(db, t, doc);
    ModelKind(f, db);
    ServerKind(f, db);
    AgentKind(f, db);
    SchemaKind(f, db);
    ToolKind(f, db);
    LinkKind(f, db);
    RelationKind(f, db);
  }

  // For a tenant whose references stay inside it nothing can fail to resolve, and links and the
  // endpoints of relations always stay.
  lemma RestoreInsideTenant(db: Tables, t: string, doc: ConfigDoc, g: Guard)
    requires WellFormed(db) && IsExport(db, t, doc) && NamesInside(db, t)
    ensures Import(db, t, doc, g).Ok? <==> Importable(db, t)
    ensures Import(db, t, doc, g).Ok? ==>
              var f := Import(db, t, doc, g).value;
              && f.links == db.links && f.relations.Keys == db.relations.Keys
              && (f.agents == db.agents <==> AgentsNormal(db, t))
              && (f.relations == db.relations <==> RelationsNormal(db, t))
  {
    RestoreTenant(db, t, doc, g);
    InsideResolves(db, t, doc);
  }

  // The whole database is what it was exactly if the tenant is in normal form and its references stay
  // inside it.
  lemma SameTenantRoundTrip(db: Tables, t: string, doc: ConfigDoc, g: Guard)
    requires WellFormed(db) && IsExport(db, t, doc)
    ensures Import(db, t, doc, g) == Ok(db) <==> Normal(db, t) && NamesInside(db, t) && EntriesInside(db, t)
  {
    RestoreTenant(db, t, doc, g);
    if NamesInside(db, t) { InsideResolves(db, t, doc); }
    if Import(db, t, doc, g).Ok? { SameTables(Import(db, t, doc, g).value, db); }
  }

  lemma ModelAfter(db: Tables, f: Tables, t: string, a: AgentItem)
    requires Key(t, a.name) in db.agents && f.models == db.models && Written(db, f, t, UpsertAgent(a))
    ensures Key(t, a.name) in f.agents && f.agents[Key(t, a.name)].modelId == ModelRef(db, t, a.modelName)
  {
  }

  lemma EntryAfter(db: Tables, f: Tables, t: string, s: SchemaItem)
    requires Key(t, s.name) in db.schemas && s.entryAgent == "" && Written(db, f, t, UpsertSchema(s))
    ensures Key(t, s.name) in f.schemas && f.schemas[Key(t, s.name)].entryAgentId == None
  {
  }

  // References outside the tenant that still resolve: an agent gets the tenant's own model of that
  // name, and a schema loses its entry agent.
  lemma OutsideReferences(db: Tables, t: string, doc: ConfigDoc, g: Guard)
    requires WellFormed(db) && IsExport(db, t, doc) && Import(db, t, doc, g).Ok?
    ensures var f := Import(db, t, doc, g).value;
            && (forall a :: a in doc.agents ==>
                  Key(t, a.name) in f.agents && f.agents[Key(t, a.name)].modelId == ModelRef(db, t, a.modelName))
            && (forall s :: s in doc.schemas ==>
                  && Key(t, s.name) in db.schemas && Key(t, s.name) in f.schemas
                  && (!EntryInside(db, t, Key(t, s.name)) ==> f.schemas[Key(t, s.name)].entryAgentId == None))
  {
    var f := Import(db, t, doc, g).value;
    ImportOutcome(db, t, doc, g);
    RestoreTenant(db, t, doc, g);
    OpsWithin(doc);
    forall a | a in doc.agents
      ensures Key(t, a.name) in f.agents && f.agents[Key(t, a.name)].modelId == ModelRef(db, t, a.modelName)
    {
      ExportedAgent(db, t, doc, a);
      ModelAfter(db, f, t, a);
    }
    forall s | s in doc.schemas
      ensures Key(t, s.name) in db.schemas && Key(t, s.name) in f.schemas
      ensures !EntryInside(db, t, Key(t, s.name)) ==> f.schemas[Key(t, s.name)].entryAgentId == None
    {
      ExportedSchema(db, t, doc, s);
      assert UpsertSchema(s) in AllOps(doc);
      if !EntryInside(db, t, Key(t, s.name)) { EntryAfter(db, f, t, s); }
    }
  }

  lemma SameTables(a: Tables, b: Tables)
    ensures a == b <==>
            && a.nextId == b.nextId && a.models == b.models && a.servers == b.servers && a.agents == b.agents
            && a.schemas == b.schemas && a.tools == b.tools && a.links == b.links && a.relations == b.relations
  {
  }
}
