// Theorems about the whole configuration import: idempotence, the quota gate's arithmetic,
// tenant isolation, and closure of references.
module ImportTheorems {
  import opened Prelude
  import opened ConfigModel
  import opened ConfigImport
  import opened ChildTables
  import opened Writes
  import opened ConfigLaws
  import opened ImportRuns

  // ---- the sections of an import ----

  ghost predicate BeforeSchemas(op: Op) { !op.UpsertSchema? && !op.ReplaceRelations? }

  lemma {:induction false} SyncOpsMembers(items: seq<AgentItem>, op: Op)
    ensures op in SyncOps(items) <==>
              exists i :: 0 <= i < |items| && (op == SyncTools(items[i]) || op == SyncLinks(items[i]))
  {
    if items != [] {
      SyncOpsMembers(items[1..], op);
      assert op in SyncOps(items)
            <==> op == SyncTools(items[0]) || op == SyncLinks(items[0]) || op in SyncOps(items[1..]);
    }
  }

  lemma {:induction false} SchemaOpsMembers(items: seq<SchemaItem>, op: Op)
    ensures op in SchemaOps(items) <==>
              exists i :: 0 <= i < |items| && (op == UpsertSchema(items[i]) || op == ReplaceRelations(items[i]))
  {
    if items != [] {
      SchemaOpsMembers(items[1..], op);
      assert op in SchemaOps(items)
            <==> op == UpsertSchema(items[0]) || op == ReplaceRelations(items[0]) || op in SchemaOps(items[1..]);
    }
  }

  lemma EntityOpsMembers(doc: ConfigDoc, op: Op)
    ensures op in EntityOps(doc) <==> EntityOpOf(doc, op)
  {
    SyncOpsMembers(doc.agents, op);
    var a, b, c, d := ModelOps(doc.models), ServerOps(doc.servers), AgentOps(doc.agents), SyncOps(doc.agents);
    assert op in EntityOps(doc) <==> op in a || op in b || op in c || op in d;
    if op.UpsertModel? && op.model in doc.models {
      var i :| 0 <= i < |doc.models| && doc.models[i] == op.model;
      assert a[i] == op;
    }
    if op.UpsertServer? && op.server in doc.servers {
      var i :| 0 <= i < |doc.servers| && doc.servers[i] == op.server;
      assert b[i] == op;
    }
    if op.UpsertAgent? && op.agent in doc.agents {
      var i :| 0 <= i < |doc.agents| && doc.agents[i] == op.agent;
      assert c[i] == op;
    }
  }

  ghost predicate EntityOpOf(doc: ConfigDoc, op: Op) {
    match op
    case UpsertModel(m) => m in doc.models
    case UpsertServer(s) => s in doc.servers
    case UpsertAgent(a) => a in doc.agents
    case SyncTools(a) => a in doc.agents
    case SyncLinks(a) => a in doc.agents
    case _ => false
  }

  function AllOps(doc: ConfigDoc): seq<Op> { EntityOps(doc) + SchemaOps(doc.schemas) }

  // The state the quota gate sees.
  function AtGate(db: Tables, t: string, doc: ConfigDoc): Result<Tables, ImportError> {
    FoldSteps(Step(t), db, EntityOps(doc))
  }

  // The guard admits what the gate asks for, or is not asked.
  ghost predicate GateOpens(db: Tables, t: string, doc: ConfigDoc, g: Guard) {
    AtGate(db, t, doc).Ok? && (doc.schemas == [] || Admits(g, GateRequest(AtGate(db, t, doc).value, t, doc.schemas)))
  }

  // An import succeeds exactly when the gate opens and the fold of all its steps succeeds, and
  // then it is that fold.
  lemma ImportIsFold(db: Tables, t: string, doc: ConfigDoc, g: Guard)
    ensures FoldSteps(Step(t), db, AllOps(doc)).Ok? ==> AtGate(db, t, doc).Ok?
    ensures Import(db, t, doc, g).Ok? <==> GateOpens(db, t, doc, g) && FoldSteps(Step(t), db, AllOps(doc)).Ok?
    ensures Import(db, t, doc, g).Ok? ==> Import(db, t, doc, g) == FoldSteps(Step(t), db, AllOps(doc))
  {
    FoldAppend(Step(t), db, EntityOps(doc), SchemaOps(doc.schemas));
    assert doc.schemas == [] ==> SchemaOps(doc.schemas) == [];
  }

  // ---- what the schema table goes through ----

  function NameSet(items: seq<SchemaItem>): set<string> { set i | 0 <= i < |items| :: items[i].name }

  lemma {:induction false} EntityOpsKeepSchemas(db: Tables, t: string, ops: seq<Op>)
    requires FoldSteps(Step(t), db, ops).Ok? && forall op :: op in ops ==> BeforeSchemas(op)
    ensures FoldSteps(Step(t), db, ops).value.schemas == db.schemas
    decreases |ops|
  {
    if ops != [] {
      StepKeepsSchemas(db, t, ops[0]);
      EntityOpsKeepSchemas(Apply(db, t, ops[0]).value, t, ops[1..]);
    }
  }

  lemma StepKeepsSchemas(db: Tables, t: string, op: Op)
    requires Apply(db, t, op).Ok? && BeforeSchemas(op)
    ensures Apply(db, t, op).value.schemas == db.schemas
  {
    match op
    case UpsertModel(_) =>
    case UpsertServer(_) =>
    case UpsertAgent(_) =>
    case SyncTools(_) =>
    case SyncLinks(_) =>
  }

  lemma SchemaStepKeys(db: Tables, t: string, s: SchemaItem)
    ensures Apply(db, t, UpsertSchema(s)).Ok? ==>
              s.name != "" && Apply(db, t, UpsertSchema(s)).value.schemas.Keys == db.schemas.Keys + {Key(t, s.name)}
    ensures Apply(db, t, ReplaceRelations(s)).Ok? ==> Apply(db, t, ReplaceRelations(s)).value.schemas == db.schemas
  {
  }

  ghost function KeySet(t: string, names: set<string>): set<Key> { set n | n in names :: Key(t, n) }

  lemma {:induction false} SchemaOpsAddKeys(db: Tables, t: string, items: seq<SchemaItem>)
    requires FoldSteps(Step(t), db, SchemaOps(items)).Ok?
    ensures FoldSteps(Step(t), db, SchemaOps(items)).value.schemas.Keys == db.schemas.Keys + KeySet(t, NameSet(items))
    ensures "" !in NameSet(items)
    decreases |items|
  {
    if items != [] {
      var s, rest := items[0], SchemaOps(items[1..]);
      FoldAppend(Step(t), db, [UpsertSchema(s), ReplaceRelations(s)], rest);
      FoldTwo(db, t, UpsertSchema(s), ReplaceRelations(s));
      var db1 := Apply(db, t, UpsertSchema(s)).value;
      var db2 := Apply(db1, t, ReplaceRelations(s)).value;
      SchemaStepKeys(db, t, s);
      SchemaStepKeys(db1, t, s);
      SchemaOpsAddKeys(db2, t, items[1..]);
      assert NameSet(items) == {s.name} + NameSet(items[1..]);
      assert KeySet(t, NameSet(items)) == {Key(t, s.name)} + KeySet(t, NameSet(items[1..]));
    }
  }

  lemma FoldTwo(db: Tables, t: string, x: Op, y: Op)
    ensures FoldSteps(Step(t), db, [x, y])
         == match Apply(db, t, x) case Err(e) => Err(e) case Ok(db1) => Apply(db1, t, y)
  {
    FoldSnoc(Step(t), db, [x], y);
    FoldSnoc(Step(t), db, [], x);
    assert [] + [x] == [x] && [x] + [y] == [x, y];
  }

  lemma {:induction false} NonEmptyNamesOf(items: seq<SchemaItem>)
    requires "" !in NameSet(items)
    ensures |NonEmptyNames(items)| == |items|
    ensures forall n :: n in NonEmptyNames(items) <==> n in NameSet(items)
  {
    if items != [] {
      assert NameSet(items) == {items[0].name} + NameSet(items[1..]);
      assert items[0].name in NameSet(items);
      NonEmptyNamesOf(items[1..]);
    }
  }

  lemma SchemasComeLast(doc: ConfigDoc)
    ensures forall op :: op in EntityOps(doc) ==> BeforeSchemas(op)
  {
    forall op | op in EntityOps(doc) ensures BeforeSchemas(op) { EntityOpsMembers(doc, op); }
  }

  lemma GateSchemas(db: Tables, t: string, doc: ConfigDoc)
    requires AtGate(db, t, doc).Ok?
    ensures AtGate(db, t, doc).value.schemas == db.schemas
  {
    SchemasComeLast(doc);
    EntityOpsKeepSchemas(db, t, EntityOps(doc));
  }

  // The schema keys of a successful import, and what its gate asked for.
  lemma ImportedKeys(db: Tables, t: string, doc: ConfigDoc, g: Guard)
    requires Import(db, t, doc, g).Ok?
    ensures AtGate(db, t, doc).Ok? && AtGate(db, t, doc).value.schemas == db.schemas
    ensures Import(db, t, doc, g).value.schemas.Keys == db.schemas.Keys + KeySet(t, NameSet(doc.schemas))
    ensures "" !in NameSet(doc.schemas)
  {
    ImportIsFold(db, t, doc, g);
    GateSchemas(db, t, doc);
    FoldAppend(Step(t), db, EntityOps(doc), SchemaOps(doc.schemas));
    SchemaOpsAddKeys(AtGate(db, t, doc).value, t, doc.schemas);
  }

  lemma GateRequestIs(db: Tables, t: string, items: seq<SchemaItem>)
    requires "" !in NameSet(items)
    ensures GateRequest(db, t, items) == |items| - |set n | n in NameSet(items) && Key(t, n) in db.schemas|
  {
    NonEmptyNamesOf(items);
    assert ExistingNames(db, t, items) == set n | n in NameSet(items) && Key(t, n) in db.schemas;
  }

  lemma AddedKeys(keys: set<Key>, t: string, names: set<string>)
    ensures |keys + KeySet(t, names)| == |keys| + |names| - |set n | n in names && Key(t, n) in keys|
  {
    var known := set n | n in names && Key(t, n) in keys;
    var added := names - known;
    KeysOf(t, added);
    assert names == known + added;
    assert keys + KeySet(t, names) == keys + KeySet(t, added);
    assert keys !! KeySet(t, added);
  }

  // The gate asks for the number of schema rows the import then inserts, plus one for every
  // repetition of a name in the list: never fewer, and the same when the names are distinct.
  lemma GateCoversInserts(db: Tables, t: string, doc: ConfigDoc, g: Guard)
    requires Import(db, t, doc, g).Ok?
    ensures AtGate(db, t, doc).Ok?
    ensures var inserted := |Import(db, t, doc, g).value.schemas| - |db.schemas|;
            var repeated := |doc.schemas| - |NameSet(doc.schemas)|;
            GateRequest(AtGate(db, t, doc).value, t, doc.schemas) == inserted + repeated
    ensures |NameSet(doc.schemas)| <= |doc.schemas|
    ensures |NameSet(doc.schemas)| == |doc.schemas| <==> DistinctNames(doc.schemas)
  {
    ImportedKeys(db, t, doc, g);
    GateRequestIs(AtGate(db, t, doc).value, t, doc.schemas);
    AddedKeys(db.schemas.Keys, t, NameSet(doc.schemas));
    KeyCount(db.schemas);
    KeyCount(Import(db, t, doc, g).value.schemas);
    CountNames(doc.schemas);
  }

  lemma KeyCount(m: map<Key, SchemaRow>)
    ensures |m| == |m.Keys|
  {
  }

  ghost predicate DistinctNames(items: seq<SchemaItem>) {
    forall i, j :: 0 <= i < j < |items| ==> items[i].name != items[j].name
  }

  lemma {:induction false} KeysOf(t: string, names: set<string>)
    ensures |KeySet(t, names)| == |names|
    decreases |names|
  {
    if names != {} {
      var x :| x in names;
      var rest := names - {x};
      KeysOf(t, rest);
      assert KeySet(t, names) == KeySet(t, rest) + {Key(t, x)};
    }
  }

  lemma {:induction false} CountNames(items: seq<SchemaItem>)
    ensures |NameSet(items)| <= |items|
    ensures |NameSet(items)| == |items| <==> DistinctNames(items)
  {
    if items != [] {
      var init, last := items[..|items| - 1], items[|items| - 1];
      CountNames(init);
      assert NameSet(items) == NameSet(init) + {last.name};
      assert forall i :: 0 <= i < |init| ==> items[i] == init[i];
      if last.name in NameSet(init) {
        assert NameSet(items) == NameSet(init);
        var i :| 0 <= i < |init| && init[i].name == last.name;
        assert items[i].name == items[|init|].name;
      }
    }
  }

  // Importing a document over its own result leaves the database as it is, whatever names the
  // document repeats, exactly when the guard admits one creation per repeated schema name.
  lemma ImportIdempotent(db: Tables, t: string, doc: ConfigDoc, g: Guard)
    requires WellFormed(db) && Import(db, t, doc, g).Ok?
    ensures var db' := Import(db, t, doc, g).value;
            && WellFormed(db')
            && (Import(db', t, doc, g) == Ok(db') <==> Admits(g, |doc.schemas| - |NameSet(doc.schemas)|))
  {
    var db' := Import(db, t, doc, g).value;
    ImportIsFold(db, t, doc, g);
    FoldIdempotent(db, t, AllOps(doc));
    FoldKeeps(db, t, AllOps(doc));
    ImportIsFold(db', t, doc, g);
    SecondGateOpens(db, db', t, doc, g);
  }

  // The second time every name exists, so only repetitions are asked for.
  lemma SecondGate(db: Tables, db': Tables, t: string, doc: ConfigDoc, g: Guard)
    requires Import(db, t, doc, g) == Ok(db') && AtGate(db', t, doc).Ok?
    ensures GateRequest(AtGate(db', t, doc).value, t, doc.schemas) == |doc.schemas| - |NameSet(doc.schemas)|
  {
    ImportedKeys(db, t, doc, g);
    GateSchemas(db', t, doc);
    GateRequestIs(AtGate(db', t, doc).value, t, doc.schemas);
    AllKnown(db'.schemas.Keys, t, NameSet(doc.schemas));
    assert (set n | n in NameSet(doc.schemas) && Key(t, n) in AtGate(db', t, doc).value.schemas)
        == (set n | n in NameSet(doc.schemas) && Key(t, n) in db'.schemas.Keys);
  }

  lemma SecondGateOpens(db: Tables, db': Tables, t: string, doc: ConfigDoc, g: Guard)
    requires Import(db, t, doc, g) == Ok(db') && AtGate(db', t, doc).Ok?
    ensures GateOpens(db', t, doc, g) <==> Admits(g, |doc.schemas| - |NameSet(doc.schemas)|)
  {
    SecondGate(db, db', t, doc, g);
    CountNames(doc.schemas);
  }

  lemma AllKnown(keys: set<Key>, t: string, names: set<string>)
    requires KeySet(t, names) <= keys
    ensures (set n | n in names && Key(t, n) in keys) == names
  {
    forall n | n in names ensures Key(t, n) in keys { assert Key(t, n) in KeySet(t, names); }
  }

  // ---- tenant isolation ----

  function ForeignRows<R>(m: map<Key, R>, t: string): map<Key, R> {
    map k | k in m && k.tenant != t :: m[k]
  }

  function ForeignChildren<K, V>(m: ChildTable<K, V>, t: string): ChildTable<K, V> {
    map c | c in m && m[c].tenant != t :: m[c]
  }

  // Everything the database holds for tenants other than t.
  function Foreign(db: Tables, t: string): Tables {
    Tables(0, ForeignRows(db.models, t), ForeignRows(db.servers, t), ForeignRows(db.agents, t),
        ForeignRows(db.schemas, t),
           ForeignChildren(db.tools, t), ForeignChildren(db.links, t), ForeignChildren(db.relations, t))
  }

  lemma SwapKeepsForeign<K, V>(m: ChildTable<K, V>, o: nat, rows: ChildTable<K, V>, t: string)
    requires SameTenant(m, o, t) && SameTenant(rows, o, t) && OwnedOnly(rows, o)
    ensures ForeignChildren(Swap(m, o, rows), t) == ForeignChildren(m, t)
  {
  }

  // Two tables agree on one key.
  ghost predicate AgreeAt<R>(m: map<Key, R>, m': map<Key, R>, k: Key) {
    (k in m <==> k in m') && (k in m ==> m[k] == m'[k])
  }

  lemma SameForeignRows<R>(m: map<Key, R>, m': map<Key, R>, t: string)
    requires forall k: Key :: k.tenant != t ==> AgreeAt(m, m', k)
    ensures ForeignRows(m, t) == ForeignRows(m', t)
  {
  }

  lemma OtherSlotKept(db: Tables, w: Write, db': Tables, s: Slot)
    requires Moves(ViewOf(db), w, ViewOf(db')) && s != Target(w)
    ensures Look(db', s) == Look(db, s)
  {
    assert ViewOf(db').look(s) == ViewOf(db).look(s);
  }

  lemma ForeignKeyKept(db: Tables, w: Write, db': Tables, k: Key)
    requires Moves(ViewOf(db), w, ViewOf(db')) && IsEntity(Target(w)) && k.tenant != Target(w).k.tenant
    ensures AgreeAt(db.models, db'.models, k) && AgreeAt(db.servers, db'.servers, k)
    ensures AgreeAt(db.agents, db'.agents, k) && AgreeAt(db.schemas, db'.schemas, k)
  {
    OtherSlotKept(db, w, db', ModelSlot(k));
    OtherSlotKept(db, w, db', ServerSlot(k));
    OtherSlotKept(db, w, db', AgentSlot(k));
    OtherSlotKept(db, w, db', SchemaSlot(k));
  }

  lemma EntityKeepsForeign(db: Tables, w: Write, db': Tables)
    requires Moves(ViewOf(db), w, ViewOf(db')) && IsEntity(Target(w))
    requires db'.tools == db.tools && db'.links == db.links && db'.relations == db.relations
    ensures Foreign(db', Target(w).k.tenant) == Foreign(db, Target(w).k.tenant)
  {
    var t := Target(w).k.tenant;
    forall k: Key | k.tenant != t
      ensures AgreeAt(db.models, db'.models, k) && AgreeAt(db.servers, db'.servers, k)
      ensures AgreeAt(db.agents, db'.agents, k) && AgreeAt(db.schemas, db'.schemas, k)
    {
      ForeignKeyKept(db, w, db', k);
    }
    SameForeignRows(db.models, db'.models, t);
    SameForeignRows(db.servers, db'.servers, t);
    SameForeignRows(db.agents, db'.agents, t);
    SameForeignRows(db.schemas, db'.schemas, t);
  }

  lemma ChildKeepsForeign(db: Tables, t: string, w: Write)
    requires ChildTenants(db) && Tidy(w) && OwnedByTenant(db, t, w) && !IsEntity(Target(w))
    ensures Foreign(Do(db, w), t) == Foreign(db, t)
  {
    match w
    case PutTools(o, rows) =>
      assert SameTenant(db.tools, o, t);
      SwapKeepsForeign(db.tools, o, rows, t);
    case PutLinks(o, rows) =>
      assert SameTenant(db.links, o, t);
      SwapKeepsForeign(db.links, o, rows, t);
    case PutRelations(o, rows) =>
      assert SameTenant(db.relations, o, t);
      SwapKeepsForeign(db.relations, o, rows, t);
    case _ =>
  }

  lemma DoKeepsForeign(db: Tables, t: string, w: Write)
    requires WellFormed(db) && Tidy(w) && OwnedByTenant(db, t, w)
    ensures Foreign(Do(db, w), t) == Foreign(db, t)
  {
    if IsEntity(Target(w)) {
      DoMoves(db, w);
      EntityLeavesChildren(db, w);
      EntityKeepsForeign(db, w, Do(db, w));
    } else {
      ChildKeepsForeign(db, t, w);
    }
  }

  lemma {:induction false} FoldKeepsForeign(db: Tables, t: string, ops: seq<Op>)
    requires WellFormed(db) && FoldSteps(Step(t), db, ops).Ok?
    ensures Foreign(FoldSteps(Step(t), db, ops).value, t) == Foreign(db, t)
    decreases |ops|
  {
    if ops != [] {
      StepKeeps(db, t, ops[0]);
      ResolveOwned(db, t, ops[0]);
      DoKeepsForeign(db, t, Resolve(db, t, ops[0]));
      FoldKeepsForeign(Apply(db, t, ops[0]).value, t, ops[1..]);
    }
  }

  // An import as tenant t changes no row of any other tenant.
  lemma ImportIsolatesTenants(db: Tables, t: string, doc: ConfigDoc, g: Guard)
    requires WellFormed(db) && Import(db, t, doc, g).Ok?
    ensures Foreign(Import(db, t, doc, g).value, t) == Foreign(db, t)
  {
    ImportIsFold(db, t, doc, g);
    FoldKeepsForeign(db, t, AllOps(doc));
  }
}
