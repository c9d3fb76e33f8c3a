// Resolved writes: what a valid import step does to the tables once every name in its item has
// been looked up.  A write changes one slot of the database: one entity row, or the rows one
// owner has in one child table.  The interaction laws are proved slot by slot.
module Writes {
  import opened Prelude
  import opened ConfigModel
  import opened ConfigImport
  import opened ChildTables

  datatype Write = PutModel(k: Key, model: ModelItem)
                 | PutServer(k: Key, server: ServerItem)
                 | PutAgent(k: Key, agent: AgentItem, modelId: Option<nat>)
                 | PutSchema(k: Key, schema: SchemaItem, entry: Option<nat>)
                 | PutTools(owner: nat, toolRows: ChildTable<ToolKey, ToolData>)
                 | PutLinks(owner: nat, linkRows: ChildTable<nat, Link>)
                 | PutRelations(owner: nat, relationRows: ChildTable<Arrow, string>)

  function Do(db: Tables, w: Write): Tables {
    match w
    case PutModel(k, m) => ApplyModel(db, k, m)
    case PutServer(k, s) => ApplyServer(db, k, s)
    case PutAgent(k, a, modelId) => ApplyAgent(db, k, a, modelId)
    case PutSchema(k, s, entry) => ApplySchema(db, k, s, entry)
    case PutTools(owner, rows) => db.(tools := Swap(db.tools, owner, rows))
    case PutLinks(owner, rows) => db.(links := Swap(db.links, owner, rows))
    case PutRelations(owner, rows) => db.(relations := Swap(db.relations, owner, rows))
  }

  // Child writes only bring rows of their own owner.
  ghost predicate Tidy(w: Write) {
    match w
    case PutTools(owner, rows) => OwnedOnly(rows, owner)
    case PutLinks(owner, rows) => OwnedOnly(rows, owner)
    case PutRelations(owner, rows) => OwnedOnly(rows, owner)
    case _ => true
  }

  // ---- slots ----

  datatype Slot = ModelSlot(k: Key) | ServerSlot(k: Key) | AgentSlot(k: Key) | SchemaSlot(k: Key)
                | ToolSlot(owner: nat) | LinkSlot(owner: nat) | RelationSlot(owner: nat)

  datatype Cell = Absent
                | ModelCell(model: ModelRow) | ServerCell(server: ServerRow)
                | AgentCell(agent: AgentRow) | SchemaCell(schema: SchemaRow)
                | ToolCell(tools: ChildTable<ToolKey, ToolData>)
                | LinkCell(links: ChildTable<nat, Link>)
                | RelationCell(relations: ChildTable<Arrow, string>)

  function Group<K, V>(m: ChildTable<K, V>, owner: nat): ChildTable<K, V> {
    map c | c in m && c.owner == owner :: m[c]
  }

  function Look(db: Tables, s: Slot): Cell {
    match s
    case ModelSlot(k) => if k in db.models then ModelCell(db.models[k]) else Absent
    case ServerSlot(k) => if k in db.servers then ServerCell(db.servers[k]) else Absent
    case AgentSlot(k) => if k in db.agents then AgentCell(db.agents[k]) else Absent
    case SchemaSlot(k) => if k in db.schemas then SchemaCell(db.schemas[k]) else Absent
    case ToolSlot(o) => ToolCell(Group(db.tools, o))
    case LinkSlot(o) => LinkCell(Group(db.links, o))
    case RelationSlot(o) => RelationCell(Group(db.relations, o))
  }

  function Target(w: Write): Slot {
    match w
    case PutModel(k, _) => ModelSlot(k)
    case PutServer(k, _) => ServerSlot(k)
    case PutAgent(k, _, _) => AgentSlot(k)
    case PutSchema(k, _, _) => SchemaSlot(k)
    case PutTools(o, _) => ToolSlot(o)
    case PutLinks(o, _) => LinkSlot(o)
    case PutRelations(o, _) => RelationSlot(o)
  }

  // The slot's content after the write; `next` is the id a created row gets.
  function After(w: Write, c: Cell, next: nat): Cell {
    match w
    case PutModel(_, m) => ModelCell(OverModel(if c.ModelCell? then c.model else BlankModel(next), m))
    case PutServer(_, s) => ServerCell(OverServer(if c.ServerCell? then c.server else BlankServer(next), s))
    case PutAgent(_, a, modelId) => AgentCell(OverAgent(if c.AgentCell? then c.agent else BlankAgent(next), a, modelId))
    case PutSchema(_, s, entry) =>
      SchemaCell(OverSchema(if c.SchemaCell? then c.schema else BlankSchema(next), s, entry))
    case PutTools(_, rows) => ToolCell(rows)
    case PutLinks(_, rows) => LinkCell(rows)
    case PutRelations(_, rows) => RelationCell(rows)
  }

  lemma GroupOfSwap<K, V>(m: ChildTable<K, V>, owner: nat, rows: ChildTable<K, V>, o: nat)
    requires OwnedOnly(rows, owner)
    ensures Group(Swap(m, owner, rows), o) == if o == owner then rows else Group(m, o)
  {
    forall c: Child<K>
      ensures c in Group(Swap(m, owner, rows), o) <==> c in (if o == owner then rows else Group(m, o))
      ensures c in Group(Swap(m, owner, rows), o) ==>
                Group(Swap(m, owner, rows), o)[c] == (if o == owner then rows else Group(m, o))[c]
    {
      SwapAt(m, owner, rows, c);
    }
  }

  lemma SameGroups<K, V>(a: ChildTable<K, V>, b: ChildTable<K, V>)
    requires forall o :: Group(a, o) == Group(b, o)
    ensures a == b
  {
    forall c ensures (c in a <==> c in b) && (c in a ==> a[c] == b[c]) {
      assert Group(a, c.owner) == Group(b, c.owner);
      assert c in a <==> c in Group(a, c.owner);
      assert c in b <==> c in Group(b, c.owner);
    }
  }

  // A database as its id counter and the content of every slot.
  datatype View = View(next: nat, look: Slot -> Cell)

  function ViewOf(db: Tables): View {
    View(db.nextId, s => Look(db, s))
  }

  // v' is v with w's slot rewritten, and an id used up when that slot was empty.
  ghost predicate Moves(v: View, w: Write, v': View) {
    && v'.next == (if v.look(Target(w)) == Absent then v.next + 1 else v.next)
    && forall s :: v'.look(s) == if s == Target(w) then After(w, v.look(s), v.next) else v.look(s)
  }

  ghost predicate SameView(v: View, v': View) {
    v.next == v'.next && forall s :: v.look(s) == v'.look(s)
  }

  lemma ModelRowLook(db: Tables, k: Key, row: ModelRow, next: nat, s: Slot)
    ensures Look(db.(models := db.models[k := row], nextId := next), s)
         == if s == ModelSlot(k) then ModelCell(row) else Look(db, s)
  {
  }

  lemma ModelLook(db: Tables, k: Key, m: ModelItem, s: Slot)
    ensures Look(ApplyModel(db, k, m), s)
         == if s == ModelSlot(k) then After(PutModel(k, m), Look(db, s), db.nextId) else Look(db, s)
  {
    var row := OverModel(if k in db.models then db.models[k] else BlankModel(db.nextId), m);
    ModelRowLook(db, k, row, if k in db.models then db.nextId else db.nextId + 1, s);
  }

  lemma ServerRowLook(db: Tables, k: Key, row: ServerRow, next: nat, s: Slot)
    ensures Look(db.(servers := db.servers[k := row], nextId := next), s)
         == if s == ServerSlot(k) then ServerCell(row) else Look(db, s)
  {
  }

  lemma ServerLook(db: Tables, k: Key, v: ServerItem, s: Slot)
    ensures Look(ApplyServer(db, k, v), s)
         == if s == ServerSlot(k) then After(PutServer(k, v), Look(db, s), db.nextId) else Look(db, s)
  {
    var row := OverServer(if k in db.servers then db.servers[k] else BlankServer(db.nextId), v);
    ServerRowLook(db, k, row, if k in db.servers then db.nextId else db.nextId + 1, s);
  }

  lemma AgentRowLook(db: Tables, k: Key, row: AgentRow, next: nat, s: Slot)
    ensures Look(db.(agents := db.agents[k := row], nextId := next), s)
         == if s == AgentSlot(k) then AgentCell(row) else Look(db, s)
  {
  }

  lemma AgentLook(db: Tables, k: Key, a: AgentItem, r: Option<nat>, s: Slot)
    ensures Look(ApplyAgent(db, k, a, r), s)
         == if s == AgentSlot(k) then After(PutAgent(k, a, r), Look(db, s), db.nextId) else Look(db, s)
  {
    var row := OverAgent(if k in db.agents then db.agents[k] else BlankAgent(db.nextId), a, r);
    AgentRowLook(db, k, row, if k in db.agents then db.nextId else db.nextId + 1, s);
  }

  lemma SchemaRowLook(db: Tables, k: Key, row: SchemaRow, next: nat, s: Slot)
    ensures Look(db.(schemas := db.schemas[k := row], nextId := next), s)
         == if s == SchemaSlot(k) then SchemaCell(row) else Look(db, s)
  {
  }

  lemma SchemaLook(db: Tables, k: Key, v: SchemaItem, r: Option<nat>, s: Slot)
    ensures Look(ApplySchema(db, k, v, r), s)
         == if s == SchemaSlot(k) then After(PutSchema(k, v, r), Look(db, s), db.nextId) else Look(db, s)
  {
    var row := OverSchema(if k in db.schemas then db.schemas[k] else BlankSchema(db.nextId), v, r);
    SchemaRowLook(db, k, row, if k in db.schemas then db.nextId else db.nextId + 1, s);
  }

  lemma EntityLook(db: Tables, w: Write, s: Slot)
    requires w.PutModel? || w.PutServer? || w.PutAgent? || w.PutSchema?
    ensures Look(Do(db, w), s) == if s == Target(w) then After(w, Look(db, s), db.nextId) else Look(db, s)
  {
    match w
    case PutModel(k, m) => ModelLook(db, k, m, s);
    case PutServer(k, v) => ServerLook(db, k, v, s);
    case PutAgent(k, v, r) => AgentLook(db, k, v, r, s);
    case PutSchema(k, v, r) => SchemaLook(db, k, v, r, s);
  }

  lemma ChildLook(db: Tables, w: Write, s: Slot)
    requires Tidy(w) && (w.PutTools? || w.PutLinks? || w.PutRelations?)
    ensures Look(Do(db, w), s) == if s == Target(w) then After(w, Look(db, s), db.nextId) else Look(db, s)
  {
    match w
    case PutTools(o, rows) => if s.ToolSlot? { GroupOfSwap(db.tools, o, rows, s.owner); }
    case PutLinks(o, rows) => if s.LinkSlot? { GroupOfSwap(db.links, o, rows, s.owner); }
    case PutRelations(o, rows) => if s.RelationSlot? { GroupOfSwap(db.relations, o, rows, s.owner); }
  }

  lemma DoNextId(db: Tables, w: Write)
    ensures Do(db, w).nextId == if Look(db, Target(w)) == Absent then db.nextId + 1 else db.nextId
  {
    match w
    case PutModel(_, _) =>
    case PutServer(_, _) =>
    case PutAgent(_, _, _) =>
    case PutSchema(_, _, _) =>
    case _ => SwapKeepsNextId(db, w);
  }

  lemma SwapKeepsNextId(db: Tables, w: Write)
    requires w.PutTools? || w.PutLinks? || w.PutRelations?
    ensures Do(db, w).nextId == db.nextId && Look(db, Target(w)) != Absent
  {
  }

  lemma DoMoves(db: Tables, w: Write)
    requires Tidy(w)
    ensures Moves(ViewOf(db), w, ViewOf(Do(db, w)))
  {
    DoNextId(db, w);
    forall s ensures Look(Do(db, w), s) == if s == Target(w) then After(w, Look(db, s), db.nextId) else Look(db, s) {
      if w.PutTools? || w.PutLinks? || w.PutRelations? { ChildLook(db, w, s); } else { EntityLook(db, w, s); }
    }
  }

  // Two databases that look the same in every slot are the same.
  lemma SameLooks(a: Tables, b: Tables)
    requires SameView(ViewOf(a), ViewOf(b))
    ensures a == b
  {
    forall s ensures Look(a, s) == Look(b, s) { assert ViewOf(a).look(s) == ViewOf(b).look(s); }
    forall o ensures Group(a.tools, o) == Group(b.tools, o) { assert Look(a, ToolSlot(o)) == Look(b, ToolSlot(o)); }
    forall o ensures Group(a.links, o) == Group(b.links, o) { assert Look(a, LinkSlot(o)) == Look(b, LinkSlot(o)); }
    forall o
      ensures Group(a.relations, o) == Group(b.relations, o)
    {
      assert Look(a, RelationSlot(o)) == Look(b, RelationSlot(o));
    }
    SameGroups(a.tools, b.tools);
    SameGroups(a.links, b.links);
    SameGroups(a.relations, b.relations);
    SameRows(a, b);
  }

  lemma SameRows(a: Tables, b: Tables)
    requires forall s :: Look(a, s) == Look(b, s)
    ensures a.models == b.models && a.servers == b.servers && a.agents == b.agents && a.schemas == b.schemas
  {
    forall k ensures (k in a.models <==> k in b.models) && (k in a.models ==> a.models[k] == b.models[k]) {
      assert Look(a, ModelSlot(k)) == Look(b, ModelSlot(k));
    }
    forall k ensures (k in a.servers <==> k in b.servers) && (k in a.servers ==> a.servers[k] == b.servers[k]) {
      assert Look(a, ServerSlot(k)) == Look(b, ServerSlot(k));
    }
    forall k ensures (k in a.agents <==> k in b.agents) && (k in a.agents ==> a.agents[k] == b.agents[k]) {
      assert Look(a, AgentSlot(k)) == Look(b, AgentSlot(k));
    }
    forall k ensures (k in a.schemas <==> k in b.schemas) && (k in a.schemas ==> a.schemas[k] == b.schemas[k]) {
      assert Look(a, SchemaSlot(k)) == Look(b, SchemaSlot(k));
    }
  }

  // ---- laws of one slot ----

  // Writing the same item over its own result changes nothing.
  lemma AfterTwice(w: Write, c: Cell, n: nat, n': nat)
    ensures After(w, After(w, c, n), n') == After(w, c, n) && After(w, c, n) != Absent
  {
    match w
    case PutModel(_, _) =>
    case PutServer(_, _) =>
    case PutAgent(_, _, _) =>
    case PutSchema(_, _, _) =>
    case _ =>
  }

  // The kind of content a slot has.
  predicate Fits(c: Cell, s: Slot) {
    match s
    case ModelSlot(_) => c.ModelCell?
    case ServerSlot(_) => c.ServerCell?
    case AgentSlot(_) => c.AgentCell?
    case SchemaSlot(_) => c.SchemaCell?
    case ToolSlot(_) => c.ToolCell?
    case LinkSlot(_) => c.LinkCell?
    case RelationSlot(_) => c.RelationCell?
  }

  // What x erases of the difference between two rows, it still erases after y wrote both.
  lemma AfterSimilar(x: Write, y: Write, c: Cell, d: Cell, n: nat, n': nat)
    requires Target(x) == Target(y) && Fits(c, Target(x)) && Fits(d, Target(x))
    requires After(x, c, n) == After(x, d, n')
    ensures After(x, After(y, c, n), n) == After(x, After(y, d, n'), n')
  {
    match x
    case PutModel(_, _) =>
    case PutServer(_, _) =>
    case PutAgent(_, _, _) =>
    case PutSchema(_, _, _) =>
    case _ =>
  }

  lemma AfterIgnoresNext(w: Write, c: Cell, n: nat, n': nat)
    requires Fits(c, Target(w))
    ensures After(w, c, n) == After(w, c, n')
  {
  }

  lemma LookFits(db: Tables, s: Slot)
    requires Look(db, s) != Absent
    ensures Fits(Look(db, s), s)
  {
  }

  // ---- laws of writes ----

  // Every slot holds nothing or content of its own kind.
  ghost predicate WellKinded(v: View) {
    forall s :: v.look(s) == Absent || Fits(v.look(s), s)
  }

  lemma ViewWellKinded(db: Tables)
    ensures WellKinded(ViewOf(db))
  {
    forall s ensures ViewOf(db).look(s) == Absent || Fits(ViewOf(db).look(s), s) {
      if Look(db, s) != Absent { LookFits(db, s); }
    }
  }

  lemma MovesTwice(v: View, w: Write, a: View, b: View)
    requires Moves(v, w, a) && Moves(a, w, b)
    ensures SameView(b, a) && a.look(Target(w)) != Absent
  {
    AfterTwice(w, v.look(Target(w)), v.next, a.next);
  }

  lemma MovesSimilar(x: Write, y: Write, a: View, a1: View, a2: View, b: View, b1: View, b2: View, m: View)
    requires WellKinded(a) && WellKinded(b) && Moves(a, x, m) && Moves(b, x, m)
    requires a.look(Target(y)) != Absent && b.look(Target(y)) != Absent
    requires Moves(a, y, a1) && Moves(a1, x, a2) && Moves(b, y, b1) && Moves(b1, x, b2)
    ensures SameView(a2, b2)
  {
    var s, u := Target(x), Target(y);
    AfterTwice(y, a.look(u), a.next, a.next);
    AfterTwice(y, b.look(u), b.next, b.next);
    assert a1.next == a.next && b1.next == b.next;
    assert a2.next == b2.next;
    forall t ensures a2.look(t) == b2.look(t) {
      assert m.look(t) == m.look(t);
      SimilarAt(x, y, a.look(t), b.look(t), a.next, b.next, t);
    }
  }

  // The same, for what one slot holds.
  lemma SimilarAt(x: Write, y: Write, c: Cell, d: Cell, n: nat, n': nat, t: Slot)
    requires t == Target(y) ==> Fits(c, t) && Fits(d, t)
    requires (if t == Target(x) then After(x, c, n) else c) == (if t == Target(x) then After(x, d, n') else d)
    ensures var c1 := if t == Target(y) then After(y, c, n) else c;
            var d1 := if t == Target(y) then After(y, d, n') else d;
            (if t == Target(x) then After(x, c1, n) else c1) == (if t == Target(x) then After(x, d1, n') else d1)
  {
    if t == Target(x) == Target(y) {
      AfterSimilar(x, y, c, d, n, n');
    } else if t == Target(y) {
      AfterIgnoresNext(y, c, n, n');
    }
  }

  // A second, identical write changes nothing.
  lemma DoTwice(db: Tables, w: Write)
    requires Tidy(w)
    ensures Do(Do(db, w), w) == Do(db, w) && Look(Do(db, w), Target(w)) != Absent
  {
    DoMoves(db, w);
    DoMoves(Do(db, w), w);
    MovesTwice(ViewOf(db), w, ViewOf(Do(db, w)), ViewOf(Do(Do(db, w), w)));
    SameLooks(Do(Do(db, w), w), Do(db, w));
    assert ViewOf(Do(db, w)).look(Target(w)) == Look(Do(db, w), Target(w));
  }

  // States that x makes equal are still made equal by x after a write to a slot both have.
  lemma DoSimilar(a: Tables, b: Tables, x: Write, y: Write)
    requires Tidy(x) && Tidy(y)
    requires Look(a, Target(y)) != Absent && Look(b, Target(y)) != Absent
    requires Do(a, x) == Do(b, x)
    ensures Do(Do(a, y), x) == Do(Do(b, y), x)
  {
    DoMoves(a, x); DoMoves(b, x);
    DoMoves(a, y); DoMoves(Do(a, y), x);
    DoMoves(b, y); DoMoves(Do(b, y), x);
    ViewWellKinded(a); ViewWellKinded(b);
    assert ViewOf(a).look(Target(y)) == Look(a, Target(y)) && ViewOf(b).look(Target(y)) == Look(b, Target(y));
    MovesSimilar(x, y, ViewOf(a), ViewOf(Do(a, y)), ViewOf(Do(Do(a, y), x)),
                 ViewOf(b), ViewOf(Do(b, y)), ViewOf(Do(Do(b, y), x)), ViewOf(Do(a, x)));
    SameLooks(Do(Do(a, y), x), Do(Do(b, y), x));
  }

}
