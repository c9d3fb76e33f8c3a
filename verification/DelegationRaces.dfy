// Concurrent changes to the delegation graph.  Every create and update reads the graph, checks, and
// writes in a later statement; between the two any other change may land.
module DelegationRaces {
  import opened Prelude
  import opened DelegationGraph
  import opened DelegationRelations

  // A checked change that is not written yet, with the edges it was checked against and how many
  // writes had landed then.
  datatype Checked = Insert(row: Relation, seen: set<Edge>, since: nat)
                   | Save(id: nat, row: Relation, seen: set<Edge>, since: nat)

  datatype Landed = Landed(schema: nat, edge: Edge)

  datatype State = State(rows: map<nat, Relation>, nextId: nat, log: seq<Landed>, pending: map<nat, Checked>)

  datatype Step = CheckInsert(op: nat, row: Relation)
                | CheckSave(op: nat, id: nat, source: Agent, target: Agent, config: string)
                | Write(op: nat)
                | Remove(id: nat)

  // The relation a change leaves out of its check.
  function Own(c: Checked): Option<nat> {
    if c.Save? then Some(c.id) else None
  }

  ghost predicate Refused(rows: map<nat, Relation>, row: Relation, own: Option<nat>) {
    row.source == row.target || WouldCycle(rows, row.schema, row.source, row.target, own)
  }

  // A write finds the unique index taken or its row gone, or it lands.
  predicate Lands(s: State, c: Checked) {
    && !PairTaken(s.rows, c.row.schema, c.row.source, c.row.target, Own(c))
    && (c.Save? ==> c.id in s.rows)
  }

  function Put(s: State, c: Checked): State {
    var id := if c.Save? then c.id else s.nextId;
    s.(rows := s.rows[id := c.row], nextId := if c.Save? then s.nextId else s.nextId + 1,
       log := s.log + [Landed(c.row.schema, EdgeOf(c.row))])
  }

  // One atomic step; a step that does not apply or is refused changes no row.
  ghost function Next(s: State, step: Step): State {
    match step
    case CheckInsert(op, row) =>
      if op in s.pending || Refused(s.rows, row, None) then s
      else s.(pending := s.pending[op := Insert(row, EdgesOf(s.rows, row.schema, None), |s.log|)])
    case CheckSave(op, id, source, target, config) =>
      if op in s.pending || id !in s.rows then s
      else (
        var row := Relation(s.rows[id].schema, source, target, config);
        if Refused(s.rows, row, Some(id)) then s
        else s.(pending := s.pending[op := Save(id, row, EdgesOf(s.rows, row.schema, Some(id)), |s.log|)]))
    case Write(op) =>
      if op !in s.pending then s
      else (
        var c, t := s.pending[op], s.(pending := s.pending - {op});
        if Lands(s, c) then Put(t, c) else t)
    case Remove(id) => s.(rows := s.rows - {id})
  }

  // ---- what a check still knows when its write comes ----

  ghost function Now(s: State, c: Checked): set<Edge> {
    EdgesOf(s.rows, c.row.schema, Own(c))
  }

  // The edges that landed in the change's schema since its check.
  function LandedSince(s: State, c: Checked): set<Edge> {
    set i | 0 <= i < |s.log| && c.since <= i && s.log[i].schema == c.row.schema :: s.log[i].edge
  }

  ghost predicate CheckHolds(s: State, c: Checked) {
    && c.since <= |s.log|
    && !Reaches(c.seen, c.row.target, c.row.source)
    && Now(s, c) <= c.seen + LandedSince(s, c)
    && (c.Save? ==> c.id < s.nextId && (c.id in s.rows ==> s.rows[c.id].schema == c.row.schema))
  }

  ghost predicate Tracked(s: State) {
    && (forall id :: id in s.rows ==> id < s.nextId)
    && (forall op :: op in s.pending ==> CheckHolds(s, s.pending[op]))
  }

  // Some edge that landed since the check, and is still there, lies on a way from the new edge's
  // target back to its source.
  ghost predicate LandedEdgeCloses(s: State, c: Checked) {
    exists d :: d in LandedSince(s, c) && d in Now(s, c)
             && Reaches(Now(s, c), c.row.target, d.source) && Reaches(Now(s, c), d.target, c.row.source)
  }

  lemma ClosesExactly(s: State, c: Checked)
    requires CheckHolds(s, c)
    ensures Reaches(Now(s, c), c.row.target, c.row.source) <==> LandedEdgeCloses(s, c)
  {
    var now := Now(s, c);
    if Reaches(now, c.row.target, c.row.source) {
      var p :| PathFromTo(now, p, c.row.target, c.row.source);
      var d := PathTakesNewEdge(now, c.seen, p);
      assert d in LandedSince(s, c);
    }
    if LandedEdgeCloses(s, c) {
      var d :| d in LandedSince(s, c) && d in now && Reaches(now, c.row.target, d.source)
               && Reaches(now, d.target, c.row.source);
      ReachesStep(now, d.source, d.target, c.row.source);
      ReachesOn(now, c.row.target, d.source, c.row.source);
    }
  }

  // ---- every step keeps track ----

  lemma EdgesAfterPutElse(rows: map<nat, Relation>, id: nat, r: Relation, schema: nat, own: Option<nat>)
    ensures EdgesOf(rows[id := r], schema, own)
         <= EdgesOf(rows, schema, own) + if r.schema == schema then {EdgeOf(r)} else {}
  {
    var after := rows[id := r];
    forall e | e in EdgesOf(after, schema, own)
      ensures e in EdgesOf(rows, schema, own) + if r.schema == schema then {EdgeOf(r)} else {}
    {
      var i :| i in after && after[i].schema == schema && own != Some(i) && EdgeOf(after[i]) == e;
      if i != id { assert i in rows && rows[i] == after[i]; }
    }
  }

  lemma LogGrows(s: State, t: State, c: Checked, l: Landed)
    requires t.log == s.log + [l] && c.since <= |s.log|
    ensures LandedSince(t, c) == LandedSince(s, c) + if l.schema == c.row.schema then {l.edge} else {}
  {
    forall e
      ensures e in LandedSince(t, c) <==> e in LandedSince(s, c) + if l.schema == c.row.schema then {l.edge} else {}
    {
      if e in LandedSince(s, c) {
        var i :| 0 <= i < |s.log| && c.since <= i && s.log[i].schema == c.row.schema && s.log[i].edge == e;
        assert t.log[i] == s.log[i];
      }
      assert t.log[|s.log|] == l;
    }
  }

  lemma PutKeepsCheck(s: State, c: Checked, d: Checked)
    requires Tracked(s) && CheckHolds(s, c) && CheckHolds(s, d) && Lands(s, d)
    ensures CheckHolds(Put(s, d), c)
  {
    var t := Put(s, d);
    EdgesAfterPutElse(s.rows, if d.Save? then d.id else s.nextId, d.row, c.row.schema, Own(c));
    LogGrows(s, t, c, Landed(d.row.schema, EdgeOf(d.row)));
  }

  lemma WriteTracked(s: State, op: nat)
    requires Tracked(s) && op in s.pending
    ensures Tracked(Next(s, Write(op)))
  {
    var d, t := s.pending[op], s.(pending := s.pending - {op});
    if Lands(s, d) {
      forall o | o in t.pending ensures CheckHolds(Put(t, d), t.pending[o]) { PutKeepsCheck(t, t.pending[o], d); }
    }
  }

  lemma FewerRows(s: State, id: nat, c: Checked)
    requires CheckHolds(s, c)
    ensures CheckHolds(s.(rows := s.rows - {id}), c)
  {
  }

  lemma NextTracked(s: State, step: Step)
    requires Tracked(s)
    ensures Tracked(Next(s, step))
  {
    match step
    case Write(op) => if op in s.pending { WriteTracked(s, op); }
    case Remove(id) =>
      forall o | o in s.pending
        ensures CheckHolds(s.(rows := s.rows - {id}), s.pending[o])
      {
        FewerRows(s, id, s.pending[o]);
      }
    case CheckInsert(_, _) =>
    case CheckSave(_, _, _, _, _) =>
  }

  // ---- when a write closes a cycle ----

  lemma OwnRowReplaced(s: State, c: Checked)
    requires Tracked(s) && CheckHolds(s, c) && Lands(s, c)
    ensures EdgesOf(Put(s, c).rows, c.row.schema, None) == Now(s, c) + {EdgeOf(c.row)}
  {
    var id := if c.Save? then c.id else s.nextId;
    EdgesAfterPut(s.rows, id, c.row, c.row.schema);
    if c.Insert? { assert EdgesOf(s.rows, c.row.schema, Some(id)) == EdgesOf(s.rows, c.row.schema, None); }
  }

  lemma OtherSchemaKept(s: State, c: Checked, schema: nat)
    requires CheckHolds(s, c) && AllAcyclic(s.rows) && schema != c.row.schema
    ensures SchemaAcyclic(Put(s, c).rows, schema)
  {
    assert SchemaAcyclic(s.rows, schema);
    EdgesAfterPut(s.rows, if c.Save? then c.id else s.nextId, c.row, schema);
    FewerEdges(EdgesOf(s.rows, schema, None), EdgesOf(Put(s, c).rows, schema, None));
  }

  // A write that lands on acyclic graphs leaves them acyclic exactly if no edge that landed since
  // its check lies on a way back.
  lemma WriteKeepsAcyclicIff(s: State, c: Checked)
    requires Tracked(s) && CheckHolds(s, c) && Lands(s, c) && AllAcyclic(s.rows)
    ensures AllAcyclic(Put(s, c).rows) <==> !LandedEdgeCloses(s, c)
  {
    var now, t := Now(s, c), Put(s, c);
    assert SchemaAcyclic(s.rows, c.row.schema);
    FewerEdges(EdgesOf(s.rows, c.row.schema, None), now);
    OwnRowReplaced(s, c);
    AddEdgeAcyclic(now, EdgeOf(c.row));
    ClosesExactly(s, c);
    assert SchemaAcyclic(t.rows, c.row.schema) <==> !LandedEdgeCloses(s, c);
    forall schema: nat | schema != c.row.schema ensures SchemaAcyclic(t.rows, schema) { OtherSchemaKept(s, c, schema); }
  }

  ghost predicate StepCloses(s: State, step: Step) {
    step.Write? && step.op in s.pending && Lands(s, s.pending[step.op]) && LandedEdgeCloses(s, s.pending[step.op])
  }

  lemma StepAcyclicIff(s: State, step: Step)
    requires Tracked(s) && AllAcyclic(s.rows)
    ensures AllAcyclic(Next(s, step).rows) <==> !StepCloses(s, step)
  {
    match step
    case Write(op) =>
      if op in s.pending {
        var c, t := s.pending[op], s.(pending := s.pending - {op});
        assert Now(t, c) == Now(s, c) && LandedSince(t, c) == LandedSince(s, c) && Lands(t, c) == Lands(s, c);
        if Lands(s, c) { WriteKeepsAcyclicIff(t, c); }
      }
    case Remove(id) =>
      var after := s.rows - {id};
      forall schema: nat ensures SchemaAcyclic(after, schema) {
        assert SchemaAcyclic(s.rows, schema);
        FewerEdges(EdgesOf(s.rows, schema, None), EdgesOf(after, schema, None));
      }
    case CheckInsert(_, _) =>
    case CheckSave(_, _, _, _, _) =>
  }

  ghost predicate AcyclicThroughout(s: State, steps: seq<Step>)
    decreases |steps|
  {
    AllAcyclic(s.rows) && (steps != [] ==> AcyclicThroughout(Next(s, steps[0]), steps[1..]))
  }

  ghost predicate NoneCloses(s: State, steps: seq<Step>)
    decreases |steps|
  {
    steps != [] ==> !StepCloses(s, steps[0]) && NoneCloses(Next(s, steps[0]), steps[1..])
  }

  // In every interleaving of any number of creates, updates and deletes, the graphs stay acyclic
  // exactly if no write of the run comes when an edge that landed in its schema since its check, and
  // is still there, lies on a way from its target to its source.
  lemma {:induction false} InterleavingsAcyclicIff(s: State, steps: seq<Step>)
    requires Tracked(s) && AllAcyclic(s.rows)
    ensures AcyclicThroughout(s, steps) <==> NoneCloses(s, steps)
    decreases |steps|
  {
    if steps != [] {
      StepAcyclicIff(s, steps[0]);
      NextTracked(s, steps[0]);
      if !StepCloses(s, steps[0]) { InterleavingsAcyclicIff(Next(s, steps[0]), steps[1..]); }
    }
  }

  // In particular a write before which nothing landed in its schema since its check closes nothing.
  lemma NothingLandedIsSafe(s: State, op: nat)
    requires Tracked(s) && AllAcyclic(s.rows) && op in s.pending && LandedSince(s, s.pending[op]) == {}
    ensures AllAcyclic(Next(s, Write(op)).rows)
  {
    StepAcyclicIff(s, Write(op));
  }

  // A create that nothing overtakes is the create of the service, refusals included.
  lemma SerialCreate(s: State, store: Store, op: nat, schema: nat, source: Agent, target: Agent, config: string)
    requires op !in s.pending && s.rows == store.rows && s.nextId == store.nextId && schema in store.entry
    ensures var row := Relation(schema, source, target, config);
            Next(Next(s, CheckInsert(op, row)), Write(op)).rows
            == match Create(store, schema, source, target, config) case Ok(t) => t.rows case Err(_) => store.rows
  {
  }

  // And so are an update and a delete.
  lemma SerialUpdate(s: State, store: Store, op: nat, id: nat, source: Agent, target: Agent, config: string)
    requires op !in s.pending && s.rows == store.rows && s.nextId == store.nextId
    ensures Next(Next(s, CheckSave(op, id, source, target, config)), Write(op)).rows
         == match Update(store, id, source, target, config) case Ok(t) => t.rows case Err(_) => store.rows
    ensures Next(s, Remove(id)).rows == match Delete(store, id) case Ok(t) => t.rows case Err(_) => store.rows
  {
  }

  ghost function Run(s: State, steps: seq<Step>): State
    decreases |steps|
  {
    if steps == [] then s else Run(Next(s, steps[0]), steps[1..])
  }

  lemma RunFour(s: State, a: Step, b: Step, c: Step, d: Step)
    ensures Run(s, [a, b, c, d]) == Next(Next(Next(Next(s, a), b), c), d)
  {
    assert [a, b, c, d][1..] == [b, c, d] && [b, c, d][1..] == [c, d] && [c, d][1..] == [d] && [d][1..] == [];
    assert Run(Next(s, a), [b, c, d]) == Run(Next(Next(s, a), b), [c, d]);
    assert Run(Next(Next(Next(s, a), b), c), [d]) == Next(Next(Next(Next(s, a), b), c), d);
  }

  lemma EmptySchemaReaches(rows: map<nat, Relation>, schema: nat, x: Agent, y: Agent)
    requires !HasRelation(rows, schema) && x != y
    ensures !Reaches(EdgesOf(rows, schema, None), x, y)
  {
    assert EdgesOf(rows, schema, None) == {};
    forall p: seq<Agent> ensures !PathFromTo({}, p, x, y) {
      if IsPath({}, p) { NoEdges(p); }
    }
  }

  lemma OppositeRowsCycle(rows: map<nat, Relation>, i: nat, j: nat, schema: nat, a: Agent, b: Agent)
    requires i in rows && rows[i].schema == schema && EdgeOf(rows[i]) == Edge(a, b)
    requires j in rows && rows[j].schema == schema && EdgeOf(rows[j]) == Edge(b, a)
    ensures !AllAcyclic(rows)
  {
    var edges := EdgesOf(rows, schema, None);
    assert Edge(a, b) in edges && Edge(b, a) in edges;
    assert IsPath(edges, [a, b, a]);
    assert !SchemaAcyclic(rows, schema);
  }

  lemma BothChecked(s: State, there: Relation, back: Relation)
    requires s.pending == map[] && !HasRelation(s.rows, there.schema) && back.schema == there.schema
    requires there.source != there.target && back.source != back.target
    ensures var t := Next(Next(s, CheckInsert(0, there)), CheckInsert(1, back));
            t == s.(pending := map[0 := Insert(there, EdgesOf(s.rows, there.schema, None), |s.log|),
                                   1 := Insert(back, EdgesOf(s.rows, there.schema, None), |s.log|)])
  {
    EmptySchemaReaches(s.rows, there.schema, there.target, there.source);
    EmptySchemaReaches(s.rows, there.schema, back.target, back.source);
  }

  // Two creates of opposite relations, both checked before either is written, close a cycle in any
  // schema that had no relation.
  lemma TwoCreatesCloseACycle(s: State, schema: nat, a: Agent, b: Agent, config: string)
    requires Tracked(s) && s.pending == map[] && !HasRelation(s.rows, schema) && a != b
    ensures var there, back := Relation(schema, a, b, config), Relation(schema, b, a, config);
            !AllAcyclic(Run(s, [CheckInsert(0, there), CheckInsert(1, back), Write(0), Write(1)]).rows)
  {
    var there, back := Relation(schema, a, b, config), Relation(schema, b, a, config);
    RunFour(s, CheckInsert(0, there), CheckInsert(1, back), Write(0), Write(1));
    BothChecked(s, there, back);
    var s2 := Next(Next(s, CheckInsert(0, there)), CheckInsert(1, back));
    var s3 := Next(s2, Write(0));
    assert s3.rows == s.rows[s.nextId := there] && 1 in s3.pending && s3.pending[1].row == back;
    var s4 := Next(s3, Write(1));
    assert s4.rows == s3.rows[s3.nextId := back];
    OppositeRowsCycle(s4.rows, s.nextId, s3.nextId, schema, a, b);
  }
}
