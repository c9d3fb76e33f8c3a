// Single import steps: when a step is valid, the resolved write it then performs, the database
// invariant every write keeps, and what later steps can rely on.
module ConfigLaws {
  import opened Prelude
  import opened ConfigModel
  import opened ConfigImport
  import opened ChildTables
  import opened Writes

  // ---- invariant of the database ----

  predicate IsEntity(s: Slot) { s.ModelSlot? || s.ServerSlot? || s.AgentSlot? || s.SchemaSlot? }

  function CellId(c: Cell): nat {
    match c
    case ModelCell(r) => r.id
    case ServerCell(r) => r.id
    case AgentCell(r) => r.id
    case SchemaCell(r) => r.id
    case _ => 0
  }

  predicate SystemCell(c: Cell) { c.SchemaCell? && c.schema.isSystem }

  // No two entity rows share an id.
  ghost predicate UniqueIds(v: View) {
    forall s, s' | IsEntity(s) && IsEntity(s') && v.look(s) != Absent && v.look(s') != Absent ::
      CellId(v.look(s)) == CellId(v.look(s')) ==> s == s'
  }

  ghost predicate IdsBelowNext(v: View) {
    forall s :: IsEntity(s) && v.look(s) != Absent ==> CellId(v.look(s)) < v.next
  }

  // No child row belongs to an id that has not been handed out.
  ghost predicate OwnersBelowNext(db: Tables) {
    && (forall c :: c in db.tools ==> c.owner < db.nextId)
    && (forall c :: c in db.links ==> c.owner < db.nextId)
    && (forall c :: c in db.relations ==> c.owner < db.nextId)
  }

  // A child row carries the tenant of its owner.
  ghost predicate ChildTenants(db: Tables) {
    && (forall k :: k in db.agents ==> SameTenant(db.tools, db.agents[k].id, k.tenant))
    && (forall k :: k in db.agents ==> SameTenant(db.links, db.agents[k].id, k.tenant))
    && (forall k :: k in db.schemas ==> SameTenant(db.relations, db.schemas[k].id, k.tenant))
  }

  ghost predicate WellFormed(db: Tables) {
    UniqueIds(ViewOf(db)) && IdsBelowNext(ViewOf(db)) && OwnersBelowNext(db) && ChildTenants(db)
  }

  // ---- closed form of a step ----

  ghost predicate Valid(db: Tables, t: string, op: Op) {
    match op
    case UpsertModel(m) => true
    case UpsertServer(s) => true
    case UpsertAgent(a) =>
      ValidBudgets(Defaults(a.settings)) && (a.modelName != "" ==> Key(t, a.modelName) in db.models)
    case SyncTools(a) => Key(t, a.name) in db.agents && Insertable(a.tools, ToolRows())
    case SyncLinks(a) => Key(t, a.name) in db.agents && Insertable(a.mcpServers, LinkRows(db.servers, t))
    case UpsertSchema(s) =>
      && s.name != ""
      && (Key(t, s.name) in db.schemas ==> !db.schemas[Key(t, s.name)].isSystem)
      && (s.entryAgent != "" ==> Key(t, s.entryAgent) in db.agents)
    case ReplaceRelations(s) => Key(t, s.name) in db.schemas && Insertable(s.relations, RelationRows(db.agents, t))
  }

  // The write a valid step performs.
  ghost function Resolve(db: Tables, t: string, op: Op): (w: Write)
    requires Valid(db, t, op)
    ensures Tidy(w)
  {
    match op
    case UpsertModel(m) => PutModel(Key(t, m.name), m)
    case UpsertServer(s) => PutServer(Key(t, s.name), s)
    case UpsertAgent(a) => PutAgent(Key(t, a.name), a, ModelRef(db, t, a.modelName))
    case SyncTools(a) =>
      var id := db.agents[Key(t, a.name)].id;
      PutTools(id, Rows(id, t, a.tools, ToolRows()))
    case SyncLinks(a) =>
      var id := db.agents[Key(t, a.name)].id;
      PutLinks(id, Rows(id, t, a.mcpServers, LinkRows(db.servers, t)))
    case UpsertSchema(s) => PutSchema(Key(t, s.name), s, AgentRef(db, t, s.entryAgent))
    case ReplaceRelations(s) =>
      var id := db.schemas[Key(t, s.name)].id;
      PutRelations(id, Rows(id, t, s.relations, RelationRows(db.agents, t)))
  }

  lemma ToolsStepClosed(db: Tables, t: string, a: AgentItem)
    requires WellFormed(db)
    ensures Apply(db, t, SyncTools(a)).Ok? <==> Valid(db, t, SyncTools(a))
    ensures Valid(db, t, SyncTools(a)) ==> Apply(db, t, SyncTools(a)) == Ok(Do(db, Resolve(db, t, SyncTools(a))))
  {
    if Key(t, a.name) in db.agents { ReplaceClosed(db.tools, db.agents[Key(t, a.name)].id, t, a.tools, ToolRows()); }
  }

  lemma LinksStepClosed(db: Tables, t: string, a: AgentItem)
    requires WellFormed(db)
    ensures Apply(db, t, SyncLinks(a)).Ok? <==> Valid(db, t, SyncLinks(a))
    ensures Valid(db, t, SyncLinks(a)) ==> Apply(db, t, SyncLinks(a)) == Ok(Do(db, Resolve(db, t, SyncLinks(a))))
  {
    if Key(t, a.name) in db.agents {
      ReplaceClosed(db.links, db.agents[Key(t, a.name)].id, t, a.mcpServers, LinkRows(db.servers, t));
    }
  }

  lemma RelationsStepClosed(db: Tables, t: string, s: SchemaItem)
    requires WellFormed(db)
    ensures Apply(db, t, ReplaceRelations(s)).Ok? <==> Valid(db, t, ReplaceRelations(s))
    ensures Valid(db, t, ReplaceRelations(s)) ==>
              Apply(db, t, ReplaceRelations(s)) == Ok(Do(db, Resolve(db, t, ReplaceRelations(s))))
  {
    if Key(t, s.name) in db.schemas {
      ReplaceClosed(db.relations, db.schemas[Key(t, s.name)].id, t, s.relations, RelationRows(db.agents, t));
    }
  }

  // A step fails exactly when its item is invalid; otherwise it performs its resolved write.
  lemma StepClosed(db: Tables, t: string, op: Op)
    requires WellFormed(db)
    ensures Apply(db, t, op).Ok? <==> Valid(db, t, op)
    ensures Valid(db, t, op) ==> Apply(db, t, op) == Ok(Do(db, Resolve(db, t, op)))
  {
    match op
    case SyncTools(a) => ToolsStepClosed(db, t, a);
    case SyncLinks(a) => LinksStepClosed(db, t, a);
    case ReplaceRelations(s) => RelationsStepClosed(db, t, s);
    case UpsertModel(_) =>
    case UpsertServer(_) =>
    case UpsertAgent(_) =>
    case UpsertSchema(_) =>
  }

  // ---- what later steps can rely on ----

  // Every row of `b` is still in `a`, with the same id; schemas keep their system flag.
  ghost predicate IdsExtend(b: Tables, a: Tables) {
    && (forall k :: k in b.models ==> k in a.models && a.models[k].id == b.models[k].id)
    && (forall k :: k in b.servers ==> k in a.servers && a.servers[k].id == b.servers[k].id)
    && (forall k :: k in b.agents ==> k in a.agents && a.agents[k].id == b.agents[k].id)
    && (forall k :: k in b.schemas ==> k in a.schemas && a.schemas[k].id == b.schemas[k].id
                                       && a.schemas[k].isSystem == b.schemas[k].isSystem)
    && (forall k :: k in a.schemas && k !in b.schemas ==> !a.schemas[k].isSystem)
  }

  lemma {:induction false} RowsCongruent<I, K, V>(owner: nat, t: string, items: seq<I>, i: nat,
                                                  f: (I, nat) -> Option<(K, V)>, g: (I, nat) -> Option<(K, V)>)
    requires i <= |items|
    requires forall j :: 0 <= j < |items| ==> f(items[j], j) == g(items[j], j)
    ensures RowsFrom(owner, t, items, i, f) == RowsFrom(owner, t, items, i, g)
    decreases |items| - i
  {
    if i < |items| { RowsCongruent(owner, t, items, i + 1, f, g); }
  }

  // An item valid before stays valid, and resolves to the same write.
  lemma ResolveExtends(b: Tables, a: Tables, t: string, op: Op)
    requires IdsExtend(b, a) && Valid(b, t, op)
    ensures Valid(a, t, op) && Resolve(a, t, op) == Resolve(b, t, op)
  {
    match op
    case UpsertModel(_) =>
    case UpsertServer(_) =>
    case UpsertAgent(_) =>
    case SyncTools(_) =>
    case SyncLinks(x) =>
      var f, g := LinkRows(a.servers, t), LinkRows(b.servers, t);
      assert forall j :: 0 <= j < |x.mcpServers| ==>
            g(x.mcpServers[j], j).Some? && f(x.mcpServers[j], j) == g(x.mcpServers[j], j);
      RowsCongruent(b.agents[Key(t, x.name)].id, t, x.mcpServers, 0, f, g);
    case UpsertSchema(_) =>
    case ReplaceRelations(x) =>
      var f, g := RelationRows(a.agents, t), RelationRows(b.agents, t);
      assert forall j :: 0 <= j < |x.relations| ==>
            g(x.relations[j], j).Some? && f(x.relations[j], j) == g(x.relations[j], j);
      RowsCongruent(b.schemas[Key(t, x.name)].id, t, x.relations, 0, f, g);
  }

  lemma AfterKeepsId(w: Write, c: Cell, n: nat)
    requires IsEntity(Target(w)) && (c == Absent || Fits(c, Target(w)))
    ensures CellId(After(w, c, n)) == if c == Absent then n else CellId(c)
    ensures SystemCell(After(w, c, n)) == SystemCell(c)
  {
  }

  lemma MovesExtend(db: Tables, w: Write, db': Tables)
    requires Moves(ViewOf(db), w, ViewOf(db'))
    ensures IdsExtend(db, db')
  {
    forall s | IsEntity(s)
      ensures Look(db, s) != Absent ==> Look(db', s) != Absent && CellId(Look(db', s)) == CellId(Look(db, s))
      ensures SystemCell(Look(db', s)) == SystemCell(Look(db, s))
    {
      assert ViewOf(db').look(s) == Look(db', s) && ViewOf(db).look(s) == Look(db, s);
      if Look(db, s) != Absent { LookFits(db, s); }
      if s == Target(w) { AfterKeepsId(w, Look(db, s), db.nextId); AfterTwice(w, Look(db, s), db.nextId, 0); }
    }
    ExtendFromSlots(db, db');
  }

  lemma ExtendFromSlots(b: Tables, a: Tables)
    requires forall s :: IsEntity(s) && Look(b, s) != Absent ==>
          Look(a, s) != Absent && CellId(Look(a, s)) == CellId(Look(b, s))
    requires forall s :: IsEntity(s) ==> SystemCell(Look(a, s)) == SystemCell(Look(b, s))
    ensures IdsExtend(b, a)
  {
    forall k | k in b.models ensures k in a.models && a.models[k].id == b.models[k].id {
      assert Look(b, ModelSlot(k)) != Absent;
    }
    forall k | k in b.servers ensures k in a.servers && a.servers[k].id == b.servers[k].id {
      assert Look(b, ServerSlot(k)) != Absent;
    }
    forall k | k in b.agents ensures k in a.agents && a.agents[k].id == b.agents[k].id {
      assert Look(b, AgentSlot(k)) != Absent;
    }
    forall k | k in b.schemas
      ensures k in a.schemas && a.schemas[k].id == b.schemas[k].id && a.schemas[k].isSystem == b.schemas[k].isSystem
    {
      assert Look(b, SchemaSlot(k)) != Absent
            && SystemCell(Look(a, SchemaSlot(k))) == SystemCell(Look(b, SchemaSlot(k)));
    }
    forall k | k in a.schemas && k !in b.schemas ensures !a.schemas[k].isSystem {
      assert SystemCell(Look(a, SchemaSlot(k))) == SystemCell(Look(b, SchemaSlot(k)));
    }
  }

  lemma DoExtends(db: Tables, w: Write)
    requires Tidy(w)
    ensures IdsExtend(db, Do(db, w))
  {
    DoMoves(db, w);
    MovesExtend(db, w, Do(db, w));
  }

  // ---- every step keeps the invariant ----

  lemma MovesKeepIds(v: View, w: Write, v': View)
    requires WellKinded(v) && Moves(v, w, v') && UniqueIds(v) && IdsBelowNext(v)
    ensures UniqueIds(v') && IdsBelowNext(v')
  {
    forall s | IsEntity(s) && v'.look(s) != Absent
      ensures CellId(v'.look(s)) == if v.look(s) == Absent then v.next else CellId(v.look(s))
      ensures v.look(s) == Absent ==> s == Target(w) && v'.next == v.next + 1
    {
      if s == Target(w) { AfterKeepsId(w, v.look(s), v.next); }
    }
  }

  ghost predicate AgentOwns(db: Tables, t: string, owner: nat) {
    exists k :: k in db.agents && k.tenant == t && db.agents[k].id == owner
  }

  // The owner of a child write is a row of tenant t, and so are the rows it brings.
  ghost predicate OwnedByTenant(db: Tables, t: string, w: Write) {
    match w
    case PutTools(o, rows) => SameTenant(rows, o, t) && AgentOwns(db, t, o)
    case PutLinks(o, rows) => SameTenant(rows, o, t) && AgentOwns(db, t, o)
    case PutRelations(o, rows) =>
      SameTenant(rows, o, t) && exists k :: k in db.schemas && k.tenant == t && db.schemas[k].id == o
    case _ => Target(w).k.tenant == t
  }

  lemma ResolveOwned(db: Tables, t: string, op: Op)
    requires Valid(db, t, op)
    ensures OwnedByTenant(db, t, Resolve(db, t, op))
  {
    match op
    case SyncTools(a) => assert Key(t, a.name) in db.agents;
    case SyncLinks(a) => assert Key(t, a.name) in db.agents;
    case ReplaceRelations(s) => assert Key(t, s.name) in db.schemas;
    case UpsertModel(_) =>
    case UpsertServer(_) =>
    case UpsertAgent(_) =>
    case UpsertSchema(_) =>
  }

  // Entity writes leave the child tables alone, and a created row has a fresh id.
  lemma EntityKeepsTenants(db: Tables, w: Write, db': Tables)
    requires OwnersBelowNext(db) && ChildTenants(db) && IdsBelowNext(ViewOf(db'))
    requires Moves(ViewOf(db), w, ViewOf(db')) && IsEntity(Target(w))
    requires db'.tools == db.tools && db'.links == db.links && db'.relations == db.relations
    ensures OwnersBelowNext(db') && ChildTenants(db')
  {
    forall k | k in db'.agents
      ensures SameTenant(db'.tools, db'.agents[k].id, k.tenant) && SameTenant(db'.links, db'.agents[k].id, k.tenant)
    {
      EntityIdKept(db, w, db', AgentSlot(k));
    }
    forall k | k in db'.schemas ensures SameTenant(db'.relations, db'.schemas[k].id, k.tenant) {
      EntityIdKept(db, w, db', SchemaSlot(k));
    }
  }

  lemma EntityIdKept(db: Tables, w: Write, db': Tables, s: Slot)
    requires Moves(ViewOf(db), w, ViewOf(db')) && IsEntity(s) && Look(db', s) != Absent
    ensures CellId(Look(db', s)) == if Look(db, s) == Absent then db.nextId else CellId(Look(db, s))
  {
    assert ViewOf(db').look(s) == Look(db', s) && ViewOf(db).look(s) == Look(db, s);
    if Look(db, s) != Absent { LookFits(db, s); }
    if s == Target(w) { AfterKeepsId(w, Look(db, s), db.nextId); }
  }

  lemma SwapKeepsTenants<K, V>(m: ChildTable<K, V>, o: nat, rows: ChildTable<K, V>, t: string, o': nat, t': string)
    requires OwnedOnly(rows, o) && SameTenant(rows, o, t) && SameTenant(m, o', t')
    requires o == o' ==> t == t'
    ensures SameTenant(Swap(m, o, rows), o', t')
  {
  }

  // Swapping in rows of an agent of tenant t keeps every agent's rows in its own tenant.
  lemma AgentSwapTenants<K, V>(agents: map<Key, AgentRow>, m: ChildTable<K, V>, o: nat, rows: ChildTable<K, V>,
                               t: string)
    requires forall k, k' :: k in agents && k' in agents && agents[k].id == agents[k'].id ==> k == k'
    requires forall k :: k in agents ==> SameTenant(m, agents[k].id, k.tenant)
    requires OwnedOnly(rows, o) && SameTenant(rows, o, t)
    requires exists k :: k in agents && k.tenant == t && agents[k].id == o
    ensures forall k :: k in agents ==> SameTenant(Swap(m, o, rows), agents[k].id, k.tenant)
  {
    var k0 :| k0 in agents && k0.tenant == t && agents[k0].id == o;
    forall k | k in agents ensures SameTenant(Swap(m, o, rows), agents[k].id, k.tenant) {
      SwapKeepsTenants(m, o, rows, t, agents[k].id, k.tenant);
    }
  }

  lemma SchemaSwapTenants<K, V>(schemas: map<Key, SchemaRow>, m: ChildTable<K, V>, o: nat, rows: ChildTable<K, V>,
                                t: string)
    requires forall k, k' :: k in schemas && k' in schemas && schemas[k].id == schemas[k'].id ==> k == k'
    requires forall k :: k in schemas ==> SameTenant(m, schemas[k].id, k.tenant)
    requires OwnedOnly(rows, o) && SameTenant(rows, o, t)
    requires exists k :: k in schemas && k.tenant == t && schemas[k].id == o
    ensures forall k :: k in schemas ==> SameTenant(Swap(m, o, rows), schemas[k].id, k.tenant)
  {
    var k0 :| k0 in schemas && k0.tenant == t && schemas[k0].id == o;
    forall k | k in schemas ensures SameTenant(Swap(m, o, rows), schemas[k].id, k.tenant) {
      SwapKeepsTenants(m, o, rows, t, schemas[k].id, k.tenant);
    }
  }

  lemma IdsOfTables(db: Tables)
    requires UniqueIds(ViewOf(db)) && IdsBelowNext(ViewOf(db))
    ensures forall k, k' :: k in db.agents && k' in db.agents && db.agents[k].id == db.agents[k'].id ==> k == k'
    ensures forall k, k' :: k in db.schemas && k' in db.schemas && db.schemas[k].id == db.schemas[k'].id ==> k == k'
    ensures forall k, k' :: k in db.servers && k' in db.servers && db.servers[k].id == db.servers[k'].id ==> k == k'
    ensures forall k, k' :: k in db.models && k' in db.models && db.models[k].id == db.models[k'].id ==> k == k'
    ensures forall k :: k in db.agents ==> db.agents[k].id < db.nextId
    ensures forall k :: k in db.schemas ==> db.schemas[k].id < db.nextId
  {
    var v := ViewOf(db);
    forall k, k' | k in db.agents && k' in db.agents && db.agents[k].id == db.agents[k'].id ensures k == k' {
      assert v.look(AgentSlot(k)) != Absent && v.look(AgentSlot(k')) != Absent;
    }
    forall k, k' | k in db.schemas && k' in db.schemas && db.schemas[k].id == db.schemas[k'].id ensures k == k' {
      assert v.look(SchemaSlot(k)) != Absent && v.look(SchemaSlot(k')) != Absent;
    }
    forall k, k' | k in db.servers && k' in db.servers && db.servers[k].id == db.servers[k'].id ensures k == k' {
      assert v.look(ServerSlot(k)) != Absent && v.look(ServerSlot(k')) != Absent;
    }
    forall k, k' | k in db.models && k' in db.models && db.models[k].id == db.models[k'].id ensures k == k' {
      assert v.look(ModelSlot(k)) != Absent && v.look(ModelSlot(k')) != Absent;
    }
    forall k | k in db.agents ensures db.agents[k].id < db.nextId { assert v.look(AgentSlot(k)) != Absent; }
    forall k | k in db.schemas ensures db.schemas[k].id < db.nextId { assert v.look(SchemaSlot(k)) != Absent; }
  }

  lemma ChildKeepsTenants(db: Tables, t: string, w: Write)
    requires UniqueIds(ViewOf(db)) && IdsBelowNext(ViewOf(db)) && OwnersBelowNext(db) && ChildTenants(db)
    requires Tidy(w) && OwnedByTenant(db, t, w) && !IsEntity(Target(w))
    ensures OwnersBelowNext(Do(db, w)) && ChildTenants(Do(db, w))
  {
    IdsOfTables(db);
    match w
    case PutTools(o, rows) => AgentSwapTenants(db.agents, db.tools, o, rows, t);
    case PutLinks(o, rows) => AgentSwapTenants(db.agents, db.links, o, rows, t);
    case PutRelations(o, rows) => SchemaSwapTenants(db.schemas, db.relations, o, rows, t);
    case PutModel(_, _) =>
    case PutServer(_, _) =>
    case PutAgent(_, _, _) =>
    case PutSchema(_, _, _) =>
  }

  lemma EntityLeavesChildren(db: Tables, w: Write)
    requires IsEntity(Target(w))
    ensures Do(db, w).tools == db.tools && Do(db, w).links == db.links && Do(db, w).relations == db.relations
  {
    match w
    case PutModel(_, _) =>
    case PutServer(_, _) =>
    case PutAgent(_, _, _) =>
    case PutSchema(_, _, _) =>
  }

  lemma DoKeepsWellFormed(db: Tables, t: string, w: Write)
    requires WellFormed(db) && Tidy(w) && OwnedByTenant(db, t, w)
    ensures WellFormed(Do(db, w))
  {
    DoMoves(db, w);
    ViewWellKinded(db);
    MovesKeepIds(ViewOf(db), w, ViewOf(Do(db, w)));
    if IsEntity(Target(w)) {
      EntityLeavesChildren(db, w);
      EntityKeepsTenants(db, w, Do(db, w));
    } else {
      ChildKeepsTenants(db, t, w);
    }
  }
}
