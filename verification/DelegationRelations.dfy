// Agent relations: the breadth-first cycle check, and everything that writes relations or entry
// agents, over stored rows; and when every schema's delegation graph stays acyclic over runs of these
// operations.
module DelegationRelations {
  import opened Prelude
  import opened DelegationGraph

  datatype Relation = Relation(schema: nat, source: Agent, target: Agent, config: string)

  datatype RelationError = SchemaNotFound | SelfLoop | RelationNotFound | Cycle | AlreadyExists | NoSuchSchemaRow
                         | NotAMember | SchemaExists | AgentInUse

  // `entry` holds the entry agent of every schema that exists.
  datatype Store = Store(rows: map<nat, Relation>, nextId: nat, entry: map<nat, Option<Agent>>)

  function EdgeOf(r: Relation): Edge { Edge(r.source, r.target) }

  // The schema's edges, leaving out one relation if asked to.
  function EdgesOf(rows: map<nat, Relation>, schema: nat, exclude: Option<nat>): set<Edge> {
    set id | id in rows && rows[id].schema == schema && exclude != Some(id) :: EdgeOf(rows[id])
  }

  // The unique index over (schema, source, target), leaving out one row.
  predicate PairTaken(rows: map<nat, Relation>, schema: nat, source: Agent, target: Agent, exclude: Option<nat>) {
    exists id :: id in rows && exclude != Some(id)
                 && rows[id].schema == schema && rows[id].source == source && rows[id].target == target
  }

  // ---- specification of the operations ----

  ghost predicate WouldCycle(rows: map<nat, Relation>, schema: nat, source: Agent, target: Agent,
                             exclude: Option<nat>) {
    Reaches(EdgesOf(rows, schema, exclude), target, source)
  }

  ghost function Create(s: Store, schema: nat, source: Agent, target: Agent,
                        config: string): Result<Store, RelationError> {
    if schema !in s.entry then Err(SchemaNotFound)
    else if source == target then Err(SelfLoop)
    else if WouldCycle(s.rows, schema, source, target, None) then Err(Cycle)
    else if PairTaken(s.rows, schema, source, target, None) then Err(AlreadyExists)
    else
      Ok(Store(s.rows[s.nextId := Relation(schema, source, target, config)], s.nextId + 1,
               if s.entry[schema] == None then s.entry[schema := Some(source)] else s.entry))
  }

  // The create of the admin tools goes straight to the shared seam: it looks up no schema, so that a
  // missing one shows only as a foreign key violation, and it sets no entry agent.
  ghost function AdminCreate(s: Store, schema: nat, source: Agent, target: Agent,
                             config: string): Result<Store, RelationError> {
    if source == target then Err(SelfLoop)
    else if WouldCycle(s.rows, schema, source, target, None) then Err(Cycle)
    else if schema !in s.entry then Err(NoSuchSchemaRow)
    else if PairTaken(s.rows, schema, source, target, None) then Err(AlreadyExists)
    else Ok(s.(rows := s.rows[s.nextId := Relation(schema, source, target, config)], nextId := s.nextId + 1))
  }

  predicate HasRelation(rows: map<nat, Relation>, schema: nat) {
    exists id :: id in rows && rows[id].schema == schema
  }

  predicate IsMember(rows: map<nat, Relation>, schema: nat, agent: Agent) {
    exists id :: id in rows && rows[id].schema == schema && (rows[id].source == agent || rows[id].target == agent)
  }

  // A schema update that names or clears the entry agent.  Once the schema has relations only a
  // member of them can be named.
  function SetEntry(s: Store, schema: nat, entry: Option<Agent>): Result<Store, RelationError> {
    if schema !in s.entry then Err(SchemaNotFound)
    else if entry.Some? && HasRelation(s.rows, schema) && !IsMember(s.rows, schema, entry.value) then Err(NotAMember)
    else Ok(s.(entry := s.entry[schema := entry]))
  }

  // The schema update of the admin tools makes no such check.
  function AdminSetEntry(s: Store, schema: nat, entry: Option<Agent>): Result<Store, RelationError> {
    if schema !in s.entry then Err(SchemaNotFound) else Ok(s.(entry := s.entry[schema := entry]))
  }

  ghost function Update(s: Store, id: nat, source: Agent, target: Agent, config: string): Result<Store, RelationError> {
    if source == target then Err(SelfLoop)
    else if id !in s.rows then Err(RelationNotFound)
    else if WouldCycle(s.rows, s.rows[id].schema, source, target, Some(id)) then Err(Cycle)
    else if PairTaken(s.rows, s.rows[id].schema, source, target, Some(id)) then Err(AlreadyExists)
    else Ok(s.(rows := s.rows[id := Relation(s.rows[id].schema, source, target, config)]))
  }

  ghost function Delete(s: Store, id: nat): Result<Store, RelationError> {
    if id !in s.rows then Err(RelationNotFound) else Ok(s.(rows := s.rows - {id}))
  }

  function NewSchema(s: Store, schema: nat, entry: Option<Agent>): Result<Store, RelationError> {
    if schema in s.entry then Err(SchemaExists) else Ok(s.(entry := s.entry[schema := entry]))
  }

  function RowsOutside(rows: map<nat, Relation>, schema: nat): map<nat, Relation> {
    map id | id in rows && rows[id].schema != schema :: rows[id]
  }

  function DropSchema(s: Store, schema: nat): Result<Store, RelationError> {
    if schema !in s.entry then Err(SchemaNotFound)
    else Ok(s.(rows := RowsOutside(s.rows, schema), entry := s.entry - {schema}))
  }

  predicate Touches(r: Relation, agents: set<Agent>) { r.source in agents || r.target in agents }

  function RowsWithout(rows: map<nat, Relation>, agents: set<Agent>): map<nat, Relation> {
    map id | id in rows && !Touches(rows[id], agents) :: rows[id]
  }

  predicate IsEntry(s: Store, schema: nat, agents: set<Agent>) {
    schema in s.entry && s.entry[schema].Some? && s.entry[schema].value in agents
  }

  // The REST path deletes an agent by its name: it clears the name's agents out of every schema's
  // entry, drops their relations, and only then deletes the agent.
  function DropAgents(s: Store, named: set<Agent>): Store {
    Store(RowsWithout(s.rows, named), s.nextId,
          map schema | schema in s.entry :: if IsEntry(s, schema, named) then None else s.entry[schema])
  }

  // The admin tools delete the row alone.  An entry agent's foreign key refuses that; relations follow
  // by theirs.
  function AdminDropAgent(s: Store, agent: Agent): Result<Store, RelationError> {
    if exists schema :: schema in s.entry && s.entry[schema] == Some(agent) then Err(AgentInUse)
    else Ok(s.(rows := RowsWithout(s.rows, {agent})))
  }

  // What an imported document says of one schema.
  datatype Graph = Graph(schema: nat, entry: Option<Agent>, edges: seq<Edge>)

  const EMPTY_JSON := "{}"

  function NewRow(next: nat, schema: nat, edges: seq<Edge>, id: nat): Relation
    requires next <= id < next + |edges|
  {
    Relation(schema, edges[id - next].source, edges[id - next].target, EMPTY_JSON)
  }

  function NewRows(next: nat, schema: nat, edges: seq<Edge>): map<nat, Relation> {
    map id: nat | next <= id < next + |edges| :: NewRow(next, schema, edges, id)
  }

  // The import sets the entry agent and replaces the relations, without a cycle check.
  ghost function ReplaceGraph(s: Store, g: Graph): Result<Store, RelationError> {
    if !Distinct(g.edges) then Err(AlreadyExists)
    else Ok(Store(RowsOutside(s.rows, g.schema) + NewRows(s.nextId, g.schema, g.edges), s.nextId + |g.edges|,
                  s.entry[g.schema := g.entry]))
  }

  ghost function ImportGraphs(s: Store, graphs: seq<Graph>): Result<Store, RelationError> {
    FoldSteps(ReplaceGraph, s, graphs)
  }

  // ---- safety over runs ----

  datatype Request = CreateRequest(schema: nat, source: Agent, target: Agent, config: string)
                   | AdminCreateRequest(schema: nat, source: Agent, target: Agent, config: string)
                   | UpdateRequest(id: nat, source: Agent, target: Agent, config: string)
                   | DeleteRequest(id: nat)
                   | EntryRequest(schema: nat, entry: Option<Agent>)
                   | AdminEntryRequest(schema: nat, entry: Option<Agent>)
                   | NewSchemaRequest(schema: nat, entry: Option<Agent>)
                   | DropSchemaRequest(schema: nat)
                   | DropAgentsRequest(named: set<Agent>)
                   | AdminDropAgentRequest(agent: Agent)
                   | ImportRequest(graphs: seq<Graph>)

  ghost function Perform(s: Store, r: Request): Result<Store, RelationError> {
    match r
    case CreateRequest(schema, source, target, config) => Create(s, schema, source, target, config)
    case AdminCreateRequest(schema, source, target, config) => AdminCreate(s, schema, source, target, config)
    case UpdateRequest(id, source, target, config) => Update(s, id, source, target, config)
    case DeleteRequest(id) => Delete(s, id)
    case EntryRequest(schema, entry) => SetEntry(s, schema, entry)
    case AdminEntryRequest(schema, entry) => AdminSetEntry(s, schema, entry)
    case NewSchemaRequest(schema, entry) => NewSchema(s, schema, entry)
    case DropSchemaRequest(schema) => DropSchema(s, schema)
    case DropAgentsRequest(named) => Ok(DropAgents(s, named))
    case AdminDropAgentRequest(agent) => AdminDropAgent(s, agent)
    case ImportRequest(graphs) => ImportGraphs(s, graphs)
  }

  // The state after serving the requests in turn; a refused request changes nothing.
  ghost function Serve(s: Store, requests: seq<Request>): Store
    decreases |requests|
  {
    if requests == [] then s
    else
      match Perform(s, requests[0])
      case Ok(s') => Serve(s', requests[1..])
      case Err(_) => Serve(s, requests[1..])
  }

  ghost predicate SchemaAcyclic(rows: map<nat, Relation>, schema: nat) {
    Acyclic(EdgesOf(rows, schema, None))
  }

  ghost predicate AllAcyclic(rows: map<nat, Relation>) {
    forall schema: nat :: SchemaAcyclic(rows, schema)
  }

  ghost predicate Sound(s: Store) {
    AllAcyclic(s.rows) && IdsBelowNext(s)
  }

  predicate IdsBelowNext(s: Store) {
    forall id :: id in s.rows ==> id < s.nextId
  }

  lemma PerformKeepsIds(s: Store, r: Request)
    requires IdsBelowNext(s) && Perform(s, r).Ok?
    ensures IdsBelowNext(Perform(s, r).value)
  {
    if r.ImportRequest? { Imported(s, r.graphs, 0); }
  }

  lemma EdgesAfterPut(rows: map<nat, Relation>, id: nat, r: Relation, schema: nat)
    ensures EdgesOf(rows[id := r], schema, None)
         == EdgesOf(rows, schema, Some(id)) + if r.schema == schema then {EdgeOf(r)} else {}
  {
    var after := rows[id := r];
    forall e ensures e in EdgesOf(after, schema, None)
                <==> e in EdgesOf(rows, schema, Some(id)) + if r.schema == schema then {EdgeOf(r)} else {}
    {
      if e in EdgesOf(after, schema, None) {
        var i :| i in after && after[i].schema == schema && EdgeOf(after[i]) == e;
        if i != id { assert i in rows && rows[i] == after[i]; }
      }
      if e in EdgesOf(rows, schema, Some(id)) {
        var i :| i in rows && rows[i].schema == schema && i != id && EdgeOf(rows[i]) == e;
        assert i in after && after[i] == rows[i];
      }
      if r.schema == schema && e == EdgeOf(r) { assert id in after && after[id] == r; }
    }
  }

  lemma PutKeepsAcyclic(rows: map<nat, Relation>, id: nat, r: Relation)
    requires AllAcyclic(rows)
    requires !WouldCycle(rows, r.schema, r.source, r.target, Some(id))
    ensures AllAcyclic(rows[id := r])
  {
    var after := rows[id := r];
    forall schema: nat ensures SchemaAcyclic(after, schema) {
      assert SchemaAcyclic(rows, schema);
      EdgesAfterPut(rows, id, r, schema);
      var kept := EdgesOf(rows, schema, Some(id));
      FewerEdges(EdgesOf(rows, schema, None), kept);
      AddEdgeAcyclic(kept, EdgeOf(r));
      assert kept + {} == kept;
    }
  }

  lemma InsertKeepsAcyclic(s: Store, r: Relation)
    requires Sound(s) && !WouldCycle(s.rows, r.schema, r.source, r.target, None)
    ensures AllAcyclic(s.rows[s.nextId := r])
  {
    assert EdgesOf(s.rows, r.schema, None) == EdgesOf(s.rows, r.schema, Some(s.nextId));
    PutKeepsAcyclic(s.rows, s.nextId, r);
  }

  lemma FewerRowsAcyclic(rows: map<nat, Relation>, fewer: map<nat, Relation>)
    requires AllAcyclic(rows) && forall id :: id in fewer ==> id in rows && fewer[id] == rows[id]
    ensures AllAcyclic(fewer)
  {
    forall schema: nat ensures SchemaAcyclic(fewer, schema) {
      assert SchemaAcyclic(rows, schema);
      FewerEdges(EdgesOf(rows, schema, None), EdgesOf(fewer, schema, None));
    }
  }

  // ---- imported graphs ----

  function EdgeSet(edges: seq<Edge>): set<Edge> { set e | e in edges }

  // The document's last word on a schema.
  function LastOf(graphs: seq<Graph>, schema: nat): Option<Graph> {
    if graphs == [] then None
    else
      match LastOf(graphs[1..], schema)
      case Some(g) => Some(g)
      case None => if graphs[0].schema == schema then Some(graphs[0]) else None
  }

  lemma ReplacedEdges(s: Store, g: Graph, schema: nat)
    requires ReplaceGraph(s, g).Ok? && IdsBelowNext(s)
    ensures EdgesOf(ReplaceGraph(s, g).value.rows, schema, None)
         == if schema == g.schema then EdgeSet(g.edges) else EdgesOf(s.rows, schema, None)
  {
    var t := ReplaceGraph(s, g).value;
    var want := if schema == g.schema then EdgeSet(g.edges) else EdgesOf(s.rows, schema, None);
    forall e ensures e in EdgesOf(t.rows, schema, None) <==> e in want {
      if e in EdgesOf(t.rows, schema, None) {
        var id :| id in t.rows && t.rows[id].schema == schema && EdgeOf(t.rows[id]) == e;
        if schema == g.schema { assert e == g.edges[id - s.nextId]; } else { assert s.rows[id] == t.rows[id]; }
      }
      if schema == g.schema && e in g.edges {
        var i :| 0 <= i < |g.edges| && g.edges[i] == e;
        assert EdgeOf(t.rows[s.nextId + i]) == e;
      }
      if schema != g.schema && e in EdgesOf(s.rows, schema, None) {
        var id :| id in s.rows && s.rows[id].schema == schema && EdgeOf(s.rows[id]) == e;
        assert t.rows[id] == s.rows[id];
      }
    }
  }

  // After an import a schema has the graph and the entry agent of the document's last word on it, and
  // without one those it had.
  lemma {:induction false} Imported(s: Store, graphs: seq<Graph>, schema: nat)
    requires ImportGraphs(s, graphs).Ok? && IdsBelowNext(s)
    ensures var t, last := ImportGraphs(s, graphs).value, LastOf(graphs, schema);
            && IdsBelowNext(t)
            && EdgesOf(t.rows, schema, None)
                == (if last.Some? then EdgeSet(last.value.edges) else EdgesOf(s.rows, schema, None))
            && (schema in t.entry <==> last.Some? || schema in s.entry)
            && (schema in t.entry ==>
                  t.entry[schema] == if last.Some? then last.value.entry else s.entry[schema])
    decreases |graphs|
  {
    if graphs != [] {
      ReplacedEdges(s, graphs[0], schema);
      Imported(ReplaceGraph(s, graphs[0]).value, graphs[1..], schema);
    }
  }

  // The document gives some schema a graph with a cycle.
  ghost predicate BringsCycle(graphs: seq<Graph>) {
    exists schema :: LastOf(graphs, schema).Some? && !Acyclic(EdgeSet(LastOf(graphs, schema).value.edges))
  }

  lemma ImportKeepsSound(s: Store, graphs: seq<Graph>)
    requires Sound(s) && ImportGraphs(s, graphs).Ok?
    ensures Sound(ImportGraphs(s, graphs).value) <==> !BringsCycle(graphs)
  {
    var t := ImportGraphs(s, graphs).value;
    forall schema: nat
      ensures SchemaAcyclic(t.rows, schema)
         <==> (LastOf(graphs, schema).Some? ==> Acyclic(EdgeSet(LastOf(graphs, schema).value.edges)))
    {
      Imported(s, graphs, schema);
      assert SchemaAcyclic(s.rows, schema);
    }
    Imported(s, graphs, 0);
  }

  // ---- acyclic throughout a run ----

  ghost predicate ImportsCycle(r: Request) { r.ImportRequest? && BringsCycle(r.graphs) }

  lemma PerformKeepsSound(s: Store, r: Request)
    requires Sound(s) && Perform(s, r).Ok?
    ensures Sound(Perform(s, r).value) <==> !ImportsCycle(r)
  {
    match r
    case CreateRequest(schema, source, target, config) =>
      InsertKeepsAcyclic(s, Relation(schema, source, target, config));
    case AdminCreateRequest(schema, source, target, config) =>
      InsertKeepsAcyclic(s, Relation(schema, source, target, config));
    case EntryRequest(_, _) =>
    case AdminEntryRequest(_, _) =>
    case NewSchemaRequest(_, _) =>
    case UpdateRequest(id, source, target, config) =>
      PutKeepsAcyclic(s.rows, id, Relation(s.rows[id].schema, source, target, config));
    case DeleteRequest(id) => FewerRowsAcyclic(s.rows, s.rows - {id});
    case DropSchemaRequest(schema) => FewerRowsAcyclic(s.rows, RowsOutside(s.rows, schema));
    case DropAgentsRequest(named) => FewerRowsAcyclic(s.rows, RowsWithout(s.rows, named));
    case AdminDropAgentRequest(agent) => FewerRowsAcyclic(s.rows, RowsWithout(s.rows, {agent}));
    case ImportRequest(graphs) => ImportKeepsSound(s, graphs);
  }

  // The stores a run goes through, the first and the last included.
  ghost predicate SoundThroughout(s: Store, requests: seq<Request>)
    decreases |requests|
  {
    Sound(s) && (requests != [] ==> SoundThroughout(Serve(s, requests[..1]), requests[1..]))
  }

  ghost predicate NoneImportsCycle(s: Store, requests: seq<Request>)
    decreases |requests|
  {
    requests != [] ==>
      && (Perform(s, requests[0]).Ok? ==> !ImportsCycle(requests[0]))
      && NoneImportsCycle(Serve(s, requests[..1]), requests[1..])
  }

  lemma ServeOne(s: Store, requests: seq<Request>)
    requires requests != []
    ensures Serve(s, requests[..1]) == match Perform(s, requests[0]) case Ok(t) => t case Err(_) => s
    ensures Serve(s, requests) == Serve(Serve(s, requests[..1]), requests[1..])
  {
    assert requests[..1][0] == requests[0] && requests[..1][1..] == [];
  }

  // Over every run of creates of either kind, updates, deletes of relations, schemas and agents, entry
  // agent changes and imports each schema's graph stays acyclic exactly if no accepted import brings a
  // cycle itself.
  lemma {:induction false} RunsStayAcyclic(s: Store, requests: seq<Request>)
    requires Sound(s)
    ensures SoundThroughout(s, requests) <==> NoneImportsCycle(s, requests)
    ensures SoundThroughout(s, requests) ==> Sound(Serve(s, requests))
    decreases |requests|
  {
    if requests != [] {
      var r, t := requests[0], Serve(s, requests[..1]);
      ServeOne(s, requests);
      if Perform(s, r).Ok? { PerformKeepsSound(s, r); }
      if Sound(t) { RunsStayAcyclic(t, requests[1..]); }
    }
  }

  // A refusal for a cycle is never unfounded: on either path the edge would have closed one.
  lemma RefusedEdgeWouldCycle(s: Store, schema: nat, source: Agent, target: Agent, config: string)
    requires Sound(s) && source != target
    ensures schema in s.entry ==>
              (Create(s, schema, source, target, config) == Err(Cycle)
               <==> !Acyclic(EdgesOf(s.rows, schema, None) + {Edge(source, target)}))
    ensures AdminCreate(s, schema, source, target, config) == Err(Cycle)
       <==> !Acyclic(EdgesOf(s.rows, schema, None) + {Edge(source, target)})
  {
    assert SchemaAcyclic(s.rows, schema);
    AddEdgeAcyclic(EdgesOf(s.rows, schema, None), Edge(source, target));
  }

  // Saving a relation again with its own endpoints never reports a cycle through itself.
  lemma ResaveNeverCycles(s: Store, id: nat, config: string)
    requires Sound(s) && id in s.rows
    ensures Update(s, id, s.rows[id].source, s.rows[id].target, config) !in {Err(SelfLoop), Err(Cycle)}
  {
    var r, all := s.rows[id], EdgesOf(s.rows, s.rows[id].schema, None);
    assert SchemaAcyclic(s.rows, r.schema) && EdgeOf(r) in all;
    NoCycleThrough(all, r.source, r.target);
    ReachesSelf(all, r.source);
    if WouldCycle(s.rows, r.schema, r.source, r.target, Some(id)) {
      var kept := EdgesOf(s.rows, r.schema, Some(id));
      var p :| PathFromTo(kept, p, r.target, r.source);
      MoreEdges(kept, all, p);
      assert PathFromTo(all, p, r.target, r.source);
    }
  }

  // ---- when a request is accepted ----

  lemma TakenIsEdge(rows: map<nat, Relation>, schema: nat, a: Agent, b: Agent, own: Option<nat>)
    ensures PairTaken(rows, schema, a, b, own) <==> Edge(a, b) in EdgesOf(rows, schema, own)
  {
    if id :| id in rows && own != Some(id) && rows[id].schema == schema
              && rows[id].source == a && rows[id].target == b
    {
      assert EdgeOf(rows[id]) == Edge(a, b);
    }
  }

  // On either path an edge is accepted exactly if its schema is there, its ends differ, it is not there
  // yet, and there is no way back.
  lemma CreateAccepted(s: Store, schema: nat, a: Agent, b: Agent, config: string)
    ensures Create(s, schema, a, b, config).Ok?
       <==> schema in s.entry && a != b && Edge(a, b) !in EdgesOf(s.rows, schema, None)
            && !Reaches(EdgesOf(s.rows, schema, None), b, a)
    ensures AdminCreate(s, schema, a, b, config).Ok?
       <==> schema in s.entry && a != b && Edge(a, b) !in EdgesOf(s.rows, schema, None)
            && !Reaches(EdgesOf(s.rows, schema, None), b, a)
  {
    TakenIsEdge(s.rows, schema, a, b, None);
  }

  // A relation is changed exactly if that holds of the edges other than its own.
  lemma UpdateAccepted(s: Store, id: nat, a: Agent, b: Agent, config: string)
    ensures Update(s, id, a, b, config).Ok?
       <==> id in s.rows && a != b && Edge(a, b) !in EdgesOf(s.rows, s.rows[id].schema, Some(id))
            && !Reaches(EdgesOf(s.rows, s.rows[id].schema, Some(id)), b, a)
  {
    if id in s.rows { TakenIsEdge(s.rows, s.rows[id].schema, a, b, Some(id)); }
  }

  // What an accepted create adds: the one edge, in its schema.
  lemma CreateAddsEdge(s: Store, schema: nat, a: Agent, b: Agent, config: string, other: nat)
    requires IdsBelowNext(s) && Create(s, schema, a, b, config).Ok?
    ensures var t := Create(s, schema, a, b, config).value;
            && EdgesOf(t.rows, other, None)
                == EdgesOf(s.rows, other, None) + (if other == schema then {Edge(a, b)} else {})
            && t.rows.Keys == s.rows.Keys + {s.nextId} && t.rows[s.nextId].config == config
            && AdminCreate(s, schema, a, b, config) == Ok(t.(entry := s.entry))
  {
    EdgesAfterPut(s.rows, s.nextId, Relation(schema, a, b, config), other);
    assert EdgesOf(s.rows, other, None) == EdgesOf(s.rows, other, Some(s.nextId));
  }

  // The agents that the schema's relations connect.
  function Members(edges: set<Edge>): set<Agent> {
    (set e | e in edges :: e.source) + (set e | e in edges :: e.target)
  }

  // An entry agent is accepted exactly if the schema is there and has no relations yet, or the agent is
  // an end of one; clearing it is accepted whenever the schema is there.
  lemma EntryAccepted(s: Store, schema: nat, entry: Option<Agent>)
    ensures SetEntry(s, schema, entry).Ok?
       <==> schema in s.entry
            && (entry == None || EdgesOf(s.rows, schema, None) == {}
                || entry.value in Members(EdgesOf(s.rows, schema, None)))
    ensures SetEntry(s, schema, entry).Ok? ==>
              var t := SetEntry(s, schema, entry).value;
              t.rows == s.rows && t.entry.Keys == s.entry.Keys && t.entry[schema] == entry
              && forall other :: other in s.entry && other != schema ==> t.entry[other] == s.entry[other]
  {
    var edges := EdgesOf(s.rows, schema, None);
    if id :| id in s.rows && s.rows[id].schema == schema { assert EdgeOf(s.rows[id]) in edges; }
    if entry.Some? && IsMember(s.rows, schema, entry.value) {
      var id :| id in s.rows && s.rows[id].schema == schema
                && (s.rows[id].source == entry.value || s.rows[id].target == entry.value);
      assert EdgeOf(s.rows[id]) in edges;
    }
    if entry.Some? && entry.value in Members(edges) {
      var e :| e in edges && (e.source == entry.value || e.target == entry.value);
      var id :| id in s.rows && s.rows[id].schema == schema && EdgeOf(s.rows[id]) == e;
    }
  }

  // A schema that is dropped takes its own edges and no others, and created anew it has none, with the
  // entry agent it is given; while it is there it cannot be created again.
  lemma DroppedComesBackEmpty(s: Store, schema: nat, entry: Option<Agent>, other: nat)
    ensures DropSchema(s, schema).Ok? <==> schema in s.entry
    ensures NewSchema(s, schema, entry).Ok? <==> schema !in s.entry
    ensures schema in s.entry ==>
              var t := NewSchema(DropSchema(s, schema).value, schema, entry);
              && t.Ok? && t.value.entry == s.entry[schema := entry]
              && EdgesOf(t.value.rows, other, None) == if other == schema then {} else EdgesOf(s.rows, other, None)
  {
    if schema in s.entry {
      var t := NewSchema(DropSchema(s, schema).value, schema, entry).value;
      assert t.entry == s.entry[schema := entry];
      forall e ensures e in EdgesOf(t.rows, other, None) <==> other != schema && e in EdgesOf(s.rows, other, None) {
        if id :| id in s.rows && s.rows[id].schema == other && other != schema && EdgeOf(s.rows[id]) == e {
          assert id in t.rows && EdgeOf(t.rows[id]) == e;
        }
      }
    }
  }

  // Deleted agents are in no relation and are no entry agent any more; every edge between other agents
  // stays, and so does every other entry agent.  The admin tools delete exactly the agents that are no
  // entry agent.
  lemma DroppedAgentsGone(s: Store, named: set<Agent>, agent: Agent, schema: nat)
    ensures EdgesOf(DropAgents(s, named).rows, schema, None)
         == set e | e in EdgesOf(s.rows, schema, None) && e.source !in named && e.target !in named
    ensures DropAgents(s, named).entry.Keys == s.entry.Keys
    ensures schema in s.entry ==>
              DropAgents(s, named).entry[schema]
              == if s.entry[schema].Some? && s.entry[schema].value in named then None else s.entry[schema]
    ensures AdminDropAgent(s, agent).Ok? <==> forall k :: k in s.entry ==> s.entry[k] != Some(agent)
    ensures AdminDropAgent(s, agent).Ok? ==>
              AdminDropAgent(s, agent).value == s.(rows := DropAgents(s, {agent}).rows)
  {
    var t := DropAgents(s, named);
    forall e
      ensures e in EdgesOf(t.rows, schema, None)
         <==> e in EdgesOf(s.rows, schema, None) && e.source !in named && e.target !in named
    {
      if e in EdgesOf(s.rows, schema, None) && e.source !in named && e.target !in named {
        var id :| id in s.rows && s.rows[id].schema == schema && EdgeOf(s.rows[id]) == e;
        assert id in t.rows && EdgeOf(t.rows[id]) == e;
      }
    }
  }

  // No two rows hold the same edge of the same schema.
  predicate NoTwins(rows: map<nat, Relation>) {
    forall i, j :: i in rows && j in rows && i != j && rows[i].schema == rows[j].schema ==>
        EdgeOf(rows[i]) != EdgeOf(rows[j])
  }

  lemma PutNoTwins(rows: map<nat, Relation>, id: nat, r: Relation)
    requires NoTwins(rows) && EdgeOf(r) !in EdgesOf(rows, r.schema, Some(id))
    ensures NoTwins(rows[id := r])
  {
    forall j | j in rows && j != id && rows[j].schema == r.schema ensures EdgeOf(rows[j]) != EdgeOf(r) {
      assert EdgeOf(rows[j]) in EdgesOf(rows, r.schema, Some(id));
    }
  }

  lemma {:induction false} ImportNoTwins(s: Store, graphs: seq<Graph>)
    requires NoTwins(s.rows) && IdsBelowNext(s) && ImportGraphs(s, graphs).Ok?
    ensures NoTwins(ImportGraphs(s, graphs).value.rows)
    decreases |graphs|
  {
    if graphs != [] {
      var t := ReplaceGraph(s, graphs[0]).value;
      ReplacedNoTwins(s, graphs[0]);
      ImportNoTwins(t, graphs[1..]);
    }
  }

  lemma ReplacedNoTwins(s: Store, g: Graph)
    requires NoTwins(s.rows) && IdsBelowNext(s) && ReplaceGraph(s, g).Ok?
    ensures NoTwins(ReplaceGraph(s, g).value.rows)
  {
    var t := ReplaceGraph(s, g).value;
    forall i, j | i in t.rows && j in t.rows && i != j && t.rows[i].schema == t.rows[j].schema
      ensures EdgeOf(t.rows[i]) != EdgeOf(t.rows[j])
    {
      if s.nextId <= i && s.nextId <= j {
        assert EdgeOf(t.rows[i]) == g.edges[i - s.nextId] && EdgeOf(t.rows[j]) == g.edges[j - s.nextId];
      }
    }
  }

  lemma PerformNoTwins(s: Store, r: Request)
    requires NoTwins(s.rows) && IdsBelowNext(s) && Perform(s, r).Ok?
    ensures NoTwins(Perform(s, r).value.rows)
  {
    match r
    case CreateRequest(schema, a, b, config) =>
      CreateAccepted(s, schema, a, b, config);
      assert EdgesOf(s.rows, schema, None) == EdgesOf(s.rows, schema, Some(s.nextId));
      PutNoTwins(s.rows, s.nextId, Relation(schema, a, b, config));
    case AdminCreateRequest(schema, a, b, config) =>
      CreateAccepted(s, schema, a, b, config);
      assert EdgesOf(s.rows, schema, None) == EdgesOf(s.rows, schema, Some(s.nextId));
      PutNoTwins(s.rows, s.nextId, Relation(schema, a, b, config));
    case UpdateRequest(id, a, b, config) =>
      UpdateAccepted(s, id, a, b, config);
      PutNoTwins(s.rows, id, Relation(s.rows[id].schema, a, b, config));
    case ImportRequest(graphs) => ImportNoTwins(s, graphs);
    case _ =>
  }

  // Over every run no schema stores an edge twice.
  lemma {:induction false} NoEdgeTwice(s: Store, requests: seq<Request>)
    requires NoTwins(s.rows) && IdsBelowNext(s)
    ensures NoTwins(Serve(s, requests).rows)
    decreases |requests|
  {
    if requests != [] {
      ServeOne(s, requests);
      if Perform(s, requests[0]).Ok? {
        PerformNoTwins(s, requests[0]);
        PerformKeepsIds(s, requests[0]);
      }
      NoEdgeTwice(Serve(s, requests[..1]), requests[1..]);
    }
  }

  // ---- the code ----

  function AdjEdges(adj: map<Agent, seq<Agent>>): set<Edge> {
    set a, b | a in adj && b in adj[a] :: Edge(a, b)
  }

  // What the breadth-first search knows between two steps: it has seen only agents it can reach,
  // has not seen dst, and has followed every edge of an agent that left the queue.
  ghost predicate Searching(adj: map<Agent, seq<Agent>>, src: Agent, dst: Agent,
                            visited: set<Agent>, done: set<Agent>, queue: seq<Agent>) {
    && src in visited && dst !in visited && done <= visited
    && Distinct(queue) && (forall x :: x in queue <==> x in visited && x !in done)
    && (forall x :: x in visited ==> Reaches(AdjEdges(adj), src, x))
    && (forall x, y :: x in done && x in adj && y in adj[x] ==> y in visited)
  }

  ghost predicate Expanding(adj: map<Agent, seq<Agent>>, src: Agent, dst: Agent, visited: set<Agent>,
                            done: set<Agent>, queue: seq<Agent>, cur: Agent) {
    && src in visited && dst !in visited && done <= visited
    && cur in visited && cur !in done && cur !in queue
    && Distinct(queue) && (forall x :: x in queue || x == cur <==> x in visited && x !in done)
    && (forall x :: x in visited ==> Reaches(AdjEdges(adj), src, x))
    && (forall x, y :: x in done && x in adj && y in adj[x] ==> y in visited)
  }

  lemma EdgeReached(adj: map<Agent, seq<Agent>>, src: Agent, a: Agent, b: Agent)
    requires a in adj && b in adj[a] && Reaches(AdjEdges(adj), src, a)
    ensures Reaches(AdjEdges(adj), src, b)
  {
    var edges := AdjEdges(adj);
    assert Edge(a, b) in edges;
    ReachesSelf(edges, b);
    ReachesStep(edges, a, b, b);
    ReachesOn(edges, src, a, b);
  }

  // The loop over the successors of the agent just taken from the queue.
  method Expand(adj: map<Agent, seq<Agent>>, src: Agent, dst: Agent, seen: set<Agent>, ghost done: set<Agent>,
                waiting: seq<Agent>, cur: Agent)
    returns (found: bool, visited: set<Agent>, queue: seq<Agent>)
    requires cur in adj && Expanding(adj, src, dst, seen, done, waiting, cur)
    ensures found ==> Reaches(AdjEdges(adj), src, dst)
    ensures !found ==> Expanding(adj, src, dst, visited, done, queue, cur)
    ensures !found ==> visited == seen + set b | b in adj[cur]
  {
    var next := adj[cur];
    visited, queue := seen, waiting;
    var i := 0;
    while i < |next|
      invariant 0 <= i <= |next|
      invariant Expanding(adj, src, dst, visited, done, queue, cur)
      invariant visited == seen + set b | b in next[..i]
    {
      EdgeReached(adj, src, cur, next[i]);
      if next[i] == dst { return true, visited, queue; }
      if next[i] !in visited {
        DistinctSnoc(queue, next[i]);
        visited := visited + {next[i]};
        queue := queue + [next[i]];
      }
      assert next[..i + 1] == next[..i] + [next[i]];
      i := i + 1;
    }
    assert next[..i] == next;
    return false, visited, queue;
  }

  lemma Popped(adj: map<Agent, seq<Agent>>, src: Agent, dst: Agent,
               visited: set<Agent>, done: set<Agent>, queue: seq<Agent>)
    requires Searching(adj, src, dst, visited, done, queue) && queue != []
    ensures Expanding(adj, src, dst, visited, done, queue[1..], queue[0])
  {
    var rest := queue[1..];
    assert queue == [queue[0]] + rest;
    forall i, j | 0 <= i < j < |rest| ensures rest[i] != rest[j] {
      assert rest[i] == queue[i + 1] && rest[j] == queue[j + 1];
    }
  }

  lemma NothingLeft(adj: map<Agent, seq<Agent>>, src: Agent, dst: Agent, visited: set<Agent>, done: set<Agent>)
    requires Searching(adj, src, dst, visited, done, [])
    ensures !Reaches(AdjEdges(adj), src, dst)
  {
    var empty: seq<Agent> := [];
    assert forall x :: x in visited ==> x in done || x in empty;
    forall p: seq<Agent> ensures !PathFromTo(AdjEdges(adj), p, src, dst) {
      if PathFromTo(AdjEdges(adj), p, src, dst) { ClosedUnder(AdjEdges(adj), visited, p); }
    }
  }

  // Breadth-first search; true as soon as dst is seen.
  method Reachable(adj: map<Agent, seq<Agent>>, src: Agent, dst: Agent) returns (found: bool)
    ensures found <==> Reaches(AdjEdges(adj), src, dst)
  {
    ReachesSelf(AdjEdges(adj), src);
    if src == dst { return true; }
    var visited := {src};
    var queue := [src];
    ghost var done: set<Agent> := {};
    ghost var all := {src} + set a, b | a in adj && b in adj[a] :: b;
    while queue != []
      invariant Searching(adj, src, dst, visited, done, queue) && visited <= all
      decreases all - done
    {
      Popped(adj, src, dst, visited, done, queue);
      var cur := queue[0];
      queue := queue[1..];
      if cur in adj {
        found, visited, queue := Expand(adj, src, dst, visited, done, queue, cur);
        if found { return; }
      }
      done := done + {cur};
    }
    NothingLeft(adj, src, dst, visited, done);
    return false;
  }

  class RelationService {
    var rows: map<nat, Relation>
    var nextId: nat
    var entry: map<nat, Option<Agent>>

    function Contents(): Store
      reads this
    {
      Store(rows, nextId, entry)
    }

    method CheckNoCycle(schema: nat, source: Agent, target: Agent, exclude: Option<nat>) returns (ok: bool)
      ensures ok <==> source != target && !WouldCycle(rows, schema, source, target, exclude)
    {
      if source == target { return false; }
      var todo := set id | id in rows && rows[id].schema == schema;
      var adj: map<Agent, seq<Agent>> := map[];
      ghost var seen: set<nat> := {};
      while todo != {}
        invariant todo !! seen && todo + seen == set id | id in rows && rows[id].schema == schema
        invariant AdjEdges(adj) == set id | id in seen && id in rows && exclude != Some(id) :: EdgeOf(rows[id])
        decreases todo
      {
        var id :| id in todo;
        todo := todo - {id};
        seen := seen + {id};
        if exclude != Some(id) {
          var r := rows[id];
          AppendEdge(adj, r.source, r.target);
          adj := adj[r.source := (if r.source in adj then adj[r.source] else []) + [r.target]];
        }
      }
      assert AdjEdges(adj) == EdgesOf(rows, schema, exclude);
      var cycle := Reachable(adj, target, source);
      return !cycle;
    }

    method CreateRelation(schema: nat, source: Agent, target: Agent, config: string)
      returns (r: Result<nat, RelationError>)
      requires Sound(Contents())
      modifies this
      ensures Sound(Contents())
      ensures match Create(old(Contents()), schema, source, target, config)
              case Ok(s) => r == Ok(old(nextId)) && Contents() == s
              case Err(e) => r == Err(e) && Contents() == old(Contents())
    {
      ghost var request := CreateRequest(schema, source, target, config);
      if Perform(Contents(), request).Ok? { PerformKeepsSound(Contents(), request); }
      if schema !in entry { return Err(SchemaNotFound); }
      if source == target { return Err(SelfLoop); }
      var ok := CheckNoCycle(schema, source, target, None);
      if !ok { return Err(Cycle); }
      if PairTaken(rows, schema, source, target, None) { return Err(AlreadyExists); }
      r := Ok(nextId);
      rows := rows[nextId := Relation(schema, source, target, config)];
      nextId := nextId + 1;
      if entry[schema] == None { entry := entry[schema := Some(source)]; }
    }

    method AdminCreateRelation(schema: nat, source: Agent, target: Agent, config: string)
      returns (r: Result<nat, RelationError>)
      requires Sound(Contents())
      modifies this`rows, this`nextId
      ensures Sound(Contents())
      ensures match AdminCreate(old(Contents()), schema, source, target, config)
              case Ok(s) => r == Ok(old(nextId)) && Contents() == s
              case Err(e) => r == Err(e) && Contents() == old(Contents())
    {
      ghost var request := AdminCreateRequest(schema, source, target, config);
      if Perform(Contents(), request).Ok? { PerformKeepsSound(Contents(), request); }
      if source == target { return Err(SelfLoop); }
      var ok := CheckNoCycle(schema, source, target, None);
      if !ok { return Err(Cycle); }
      if schema !in entry { return Err(NoSuchSchemaRow); }
      if PairTaken(rows, schema, source, target, None) { return Err(AlreadyExists); }
      r := Ok(nextId);
      rows := rows[nextId := Relation(schema, source, target, config)];
      nextId := nextId + 1;
    }

    method UpdateSchemaEntry(schema: nat, agent: Option<Agent>) returns (err: Option<RelationError>)
      modifies this`entry
      ensures match SetEntry(old(Contents()), schema, agent)
              case Ok(s) => err == None && Contents() == s
              case Err(e) => err == Some(e) && Contents() == old(Contents())
    {
      if schema !in entry { return Some(SchemaNotFound); }
      if agent.Some? && HasRelation(rows, schema) && !IsMember(rows, schema, agent.value) { return Some(NotAMember); }
      entry := entry[schema := agent];
      return None;
    }

    method AdminUpdateEntry(schema: nat, agent: Option<Agent>) returns (err: Option<RelationError>)
      modifies this`entry
      ensures match AdminSetEntry(old(Contents()), schema, agent)
              case Ok(s) => err == None && Contents() == s
              case Err(e) => err == Some(e) && Contents() == old(Contents())
    {
      if schema !in entry { return Some(SchemaNotFound); }
      entry := entry[schema := agent];
      return None;
    }

    method DeleteAgentsNamed(named: set<Agent>)
      modifies this
      ensures Contents() == DropAgents(old(Contents()), named)
    {
      var schemas := entry.Keys;
      ghost var was := Contents();
      while schemas != {}
        invariant schemas <= entry.Keys == was.entry.Keys && rows == was.rows && nextId == was.nextId
        invariant forall schema :: schema in entry ==>
              entry[schema] == if schema !in schemas && IsEntry(was, schema, named) then None else was.entry[schema]
        decreases schemas
      {
        var schema :| schema in schemas;
        schemas := schemas - {schema};
        if entry[schema].Some? && entry[schema].value in named {
          entry := entry[schema := None];
        }
      }
      rows := map id | id in rows && !Touches(rows[id], named) :: rows[id];
    }

    method AdminDeleteAgent(agent: Agent) returns (err: Option<RelationError>)
      modifies this`rows
      ensures match AdminDropAgent(old(Contents()), agent)
              case Ok(s) => err == None && Contents() == s
              case Err(e) => err == Some(e) && Contents() == old(Contents())
    {
      if exists schema :: schema in entry && entry[schema] == Some(agent) { return Some(AgentInUse); }
      rows := map id | id in rows && !Touches(rows[id], {agent}) :: rows[id];
      return None;
    }

    method DeleteSchema(schema: nat) returns (err: Option<RelationError>)
      modifies this
      ensures match DropSchema(old(Contents()), schema)
              case Ok(s) => err == None && Contents() == s
              case Err(e) => err == Some(e) && Contents() == old(Contents())
    {
      var before := rows;
      rows := map id | id in rows && rows[id].schema != schema :: rows[id];
      if schema !in entry {
        rows := before;
        return Some(SchemaNotFound);
      }
      entry := entry - {schema};
      return None;
    }

    method UpdateRelation(id: nat, source: Agent, target: Agent, config: string) returns (err: Option<RelationError>)
      requires Sound(Contents())
      modifies this`rows
      ensures Sound(Contents())
      ensures match Update(old(Contents()), id, source, target, config)
              case Ok(s) => err == None && Contents() == s
              case Err(e) => err == Some(e) && Contents() == old(Contents())
    {
      ghost var request := UpdateRequest(id, source, target, config);
      if Perform(Contents(), request).Ok? { PerformKeepsSound(Contents(), request); }
      if source == target { return Some(SelfLoop); }
      if id !in rows { return Some(RelationNotFound); }
      var schema := rows[id].schema;
      var ok := CheckNoCycle(schema, source, target, Some(id));
      if !ok { return Some(Cycle); }
      if PairTaken(rows, schema, source, target, Some(id)) { return Some(AlreadyExists); }
      rows := rows[id := Relation(schema, source, target, config)];
      return None;
    }

    method DeleteRelation(id: nat) returns (err: Option<RelationError>)
      requires Sound(Contents())
      modifies this`rows
      ensures Sound(Contents())
      ensures match Delete(old(Contents()), id)
              case Ok(s) => err == None && Contents() == s
              case Err(e) => err == Some(e) && Contents() == old(Contents())
    {
      if id !in rows { return Some(RelationNotFound); }
      PerformKeepsSound(Contents(), DeleteRequest(id));
      rows := rows - {id};
      return None;
    }
  }

  lemma AppendEdge(adj: map<Agent, seq<Agent>>, a: Agent, b: Agent)
    ensures AdjEdges(adj[a := (if a in adj then adj[a] else []) + [b]]) == AdjEdges(adj) + {Edge(a, b)}
  {
    var adj' := adj[a := (if a in adj then adj[a] else []) + [b]];
    forall e ensures e in AdjEdges(adj') <==> e in AdjEdges(adj) + {Edge(a, b)} {
      if e in AdjEdges(adj) { assert e.source in adj' && e.target in adj'[e.source]; }
      assert b in adj'[a];
    }
  }
}
