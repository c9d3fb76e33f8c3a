// Entry agents of schemas: when every schema with relations has one over a run of the operations on
// relations, schemas and agents, and what can take one away.
module DelegationEntries {
  import opened Prelude
  import opened DelegationGraph
  import opened DelegationRelations

  // Every relation belongs to a schema that exists and has an entry agent.
  predicate EntriesSet(s: Store) {
    forall id :: id in s.rows ==> s.rows[id].schema in s.entry && s.entry[s.rows[id].schema].Some?
  }

  // The requests that leave a schema with relations and no entry agent: an admin create in a schema
  // that has none yet, clearing the entry of a schema in use, deleting the entry agent of a schema
  // that keeps a relation, and an import that gives a schema relations and no entry.
  predicate LeavesUnset(s: Store, r: Request) {
    match r
    case AdminCreateRequest(schema, _, _, _) => schema in s.entry && s.entry[schema] == None
    case EntryRequest(schema, entry) => entry == None && HasRelation(s.rows, schema)
    case AdminEntryRequest(schema, entry) => entry == None && HasRelation(s.rows, schema)
    case DropAgentsRequest(named) =>
      exists id :: id in s.rows && !Touches(s.rows[id], named) && IsEntry(s, s.rows[id].schema, named)
    case ImportRequest(graphs) => exists i :: 0 <= i < |graphs| && BringsUnset(graphs, i)
    case _ => false
  }

  // The document's last word on a schema holds relations and no entry.
  predicate BringsUnset(graphs: seq<Graph>, i: nat)
    requires i < |graphs|
  {
    LastOf(graphs, graphs[i].schema) == Some(graphs[i]) && graphs[i].edges != [] && graphs[i].entry == None
  }

  lemma {:induction false} LastIsOne(graphs: seq<Graph>, schema: nat)
    ensures LastOf(graphs, schema).Some? ==>
              LastOf(graphs, schema).value in graphs && LastOf(graphs, schema).value.schema == schema
  {
    if graphs != [] { LastIsOne(graphs[1..], schema); }
  }

  lemma EdgesMeanRelations(rows: map<nat, Relation>, schema: nat)
    ensures HasRelation(rows, schema) <==> EdgesOf(rows, schema, None) != {}
  {
    if id :| id in rows && rows[id].schema == schema { assert EdgeOf(rows[id]) in EdgesOf(rows, schema, None); }
    if EdgesOf(rows, schema, None) != {} {
      var e :| e in EdgesOf(rows, schema, None);
    }
  }

  predicate EntrySetFor(s: Store, schema: nat) {
    HasRelation(s.rows, schema) ==> schema in s.entry && s.entry[schema].Some?
  }

  lemma EntriesBySchema(s: Store)
    ensures EntriesSet(s) <==> forall schema: nat :: EntrySetFor(s, schema)
  {
    if forall schema: nat :: EntrySetFor(s, schema) {
      forall id | id in s.rows ensures s.rows[id].schema in s.entry && s.entry[s.rows[id].schema].Some? {
        assert EntrySetFor(s, s.rows[id].schema);
      }
    }
  }

  lemma ImportUnsetExactly(s: Store, graphs: seq<Graph>)
    requires IdsBelowNext(s) && EntriesSet(s) && ImportGraphs(s, graphs).Ok?
    ensures EntriesSet(ImportGraphs(s, graphs).value) <==> !exists i :: 0 <= i < |graphs| && BringsUnset(graphs, i)
  {
    var t := ImportGraphs(s, graphs).value;
    EntriesBySchema(s);
    EntriesBySchema(t);
    forall schema: nat
      ensures EntrySetFor(t, schema)
         <==> !(LastOf(graphs, schema).Some? && LastOf(graphs, schema).value.edges != []
                && LastOf(graphs, schema).value.entry == None)
    {
      Imported(s, graphs, schema);
      EdgesMeanRelations(s.rows, schema);
      EdgesMeanRelations(t.rows, schema);
      assert EntrySetFor(s, schema);
      if LastOf(graphs, schema).Some? { EmptyEdgeSet(LastOf(graphs, schema).value.edges); }
    }
    if i :| 0 <= i < |graphs| && BringsUnset(graphs, i) { assert !EntrySetFor(t, graphs[i].schema); }
    if schema: nat :| !EntrySetFor(t, schema) {
      LastIsOne(graphs, schema);
      var i :| 0 <= i < |graphs| && graphs[i] == LastOf(graphs, schema).value;
      assert BringsUnset(graphs, i);
    }
  }

  lemma EmptyEdgeSet(edges: seq<Edge>)
    ensures EdgeSet(edges) == {} <==> edges == []
  {
    if edges != [] { assert edges[0] in EdgeSet(edges); }
  }

  lemma DropUnsetExactly(s: Store, named: set<Agent>)
    requires EntriesSet(s)
    ensures EntriesSet(DropAgents(s, named)) <==> !LeavesUnset(s, DropAgentsRequest(named))
  {
    var t := DropAgents(s, named);
    if id :| id in s.rows && !Touches(s.rows[id], named) && IsEntry(s, s.rows[id].schema, named) {
      assert id in t.rows && t.entry[t.rows[id].schema] == None;
    }
  }

  lemma UnsetExactly(s: Store, r: Request)
    requires IdsBelowNext(s) && EntriesSet(s) && Perform(s, r).Ok?
    ensures EntriesSet(Perform(s, r).value) <==> !LeavesUnset(s, r)
  {
    var t := Perform(s, r).value;
    match r
    case AdminCreateRequest(schema, _, _, _) => assert t.rows[s.nextId].schema == schema;
    case EntryRequest(schema, _) => ClearedIsUnset(s, t, schema);
    case AdminEntryRequest(schema, _) => ClearedIsUnset(s, t, schema);
    case DropAgentsRequest(named) => DropUnsetExactly(s, named);
    case ImportRequest(graphs) => ImportUnsetExactly(s, graphs);
    case _ =>
  }

  lemma ClearedIsUnset(s: Store, t: Store, schema: nat)
    requires t.rows == s.rows && schema in t.entry
    ensures HasRelation(s.rows, schema) && t.entry[schema] == None ==> !EntriesSet(t)
  {
    if id :| id in s.rows && s.rows[id].schema == schema { assert id in t.rows; }
  }

  ghost predicate EntriesSetThroughout(s: Store, requests: seq<Request>)
    decreases |requests|
  {
    EntriesSet(s) && (requests != [] ==> EntriesSetThroughout(Serve(s, requests[..1]), requests[1..]))
  }

  ghost predicate NoneLeavesUnset(s: Store, requests: seq<Request>)
    decreases |requests|
  {
    requests != [] ==>
      && (Perform(s, requests[0]).Ok? ==> !LeavesUnset(s, requests[0]))
      && NoneLeavesUnset(Serve(s, requests[..1]), requests[1..])
  }

  // Every schema with relations has an entry agent throughout a run exactly if no accepted request
  // of the run is one of those.
  lemma {:induction false} EntriesStay(s: Store, requests: seq<Request>)
    requires IdsBelowNext(s) && EntriesSet(s)
    ensures EntriesSetThroughout(s, requests) <==> NoneLeavesUnset(s, requests)
    decreases |requests|
  {
    if requests != [] {
      var r, t := requests[0], Serve(s, requests[..1]);
      ServeOne(s, requests);
      if Perform(s, r).Ok? {
        UnsetExactly(s, r);
        PerformKeepsIds(s, r);
      }
      if EntriesSet(t) { EntriesStay(t, requests[1..]); }
    }
  }

  // The requests that can change the entry agent of a schema: an update of its entry, its deletion,
  // the deletion of the entry agent, and an import that names the schema.
  predicate MayReplace(r: Request, schema: nat, agent: Agent) {
    match r
    case EntryRequest(other, _) => other == schema
    case AdminEntryRequest(other, _) => other == schema
    case DropSchemaRequest(other) => other == schema
    case DropAgentsRequest(named) => agent in named
    case ImportRequest(graphs) => exists g :: g in graphs && g.schema == schema
    case _ => false
  }

  lemma EntryUntouched(s: Store, r: Request, schema: nat)
    requires schema in s.entry && s.entry[schema].Some? && Perform(s, r).Ok?
    requires IdsBelowNext(s) && !MayReplace(r, schema, s.entry[schema].value)
    ensures schema in Perform(s, r).value.entry && Perform(s, r).value.entry[schema] == s.entry[schema]
  {
    if r.ImportRequest? {
      LastIsOne(r.graphs, schema);
      Imported(s, r.graphs, schema);
    }
  }

  // An entry agent that is set stays as long as none of them comes.
  lemma {:induction false} EntryKept(s: Store, requests: seq<Request>, schema: nat)
    requires IdsBelowNext(s) && schema in s.entry && s.entry[schema].Some?
    requires forall r :: r in requests ==> !MayReplace(r, schema, s.entry[schema].value)
    ensures schema in Serve(s, requests).entry && Serve(s, requests).entry[schema] == s.entry[schema]
    decreases |requests|
  {
    if requests != [] {
      var r := requests[0];
      assert r in requests;
      ServeOne(s, requests);
      if Perform(s, r).Ok? {
        EntryUntouched(s, r, schema);
        PerformKeepsIds(s, r);
      }
      EntryKept(Serve(s, requests[..1]), requests[1..], schema);
    }
  }

  // A REST create in a schema without entry agent makes the new relation's source the entry.
  lemma FirstSourceIsEntry(s: Store, r: Request)
    requires r.CreateRequest? && Perform(s, r).Ok? && s.entry[r.schema] == None
    ensures Perform(s, r).value.entry[r.schema] == Some(Perform(s, r).value.rows[s.nextId].source)
  {
  }
}
