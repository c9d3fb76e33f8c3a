// The import as a list of partial steps over the tables, one step per loop iteration of the
// importer.  ConfigStore.dfy proves that the table-updating methods compute exactly this.
module ConfigImport {
  import opened Prelude
  import opened ConfigModel

  datatype ImportError = BadBudget(agent: string) | UnknownReference(name: string) | DuplicateRow
                       | EmptySchemaName | SystemSchema(name: string) | NotFound | QuotaDenied(asked: nat)

  datatype Op = UpsertModel(model: ModelItem)
              | UpsertServer(server: ServerItem)
              | UpsertAgent(agent: AgentItem)
              | SyncTools(agent: AgentItem)
              | SyncLinks(agent: AgentItem)
              | UpsertSchema(schema: SchemaItem)
              | ReplaceRelations(schema: SchemaItem)

  // ---- child tables: delete the owner's rows, then insert one by one ----

  function DeleteOwned<K, V>(m: ChildTable<K, V>, owner: nat, tenant: string): ChildTable<K, V> {
    map c | c in m && !(c.owner == owner && m[c].tenant == tenant) :: m[c]
  }

  // Inserts the rows that items[i..] resolve to; an unresolved reference or an occupied
  // unique key stops the insertion.
  function InsertFrom<I, K, V>(m: ChildTable<K, V>, owner: nat, tenant: string, items: seq<I>, i: nat,
                               resolve: (I, nat) -> Option<(K, V)>): Result<ChildTable<K, V>, ImportError>
    requires i <= |items|
    decreases |items| - i
  {
    if i == |items| then Ok(m)
    else
      match resolve(items[i], i)
      case None => Err(NotFound)
      case Some((k, v)) =>
        if Child(owner, k) in m then Err(DuplicateRow)
        else InsertFrom(m[Child(owner, k) := Owned(tenant, v)], owner, tenant, items, i + 1, resolve)
  }

  function ReplaceOwned<I, K, V>(m: ChildTable<K, V>, owner: nat, tenant: string, items: seq<I>,
                                 resolve: (I, nat) -> Option<(K, V)>): Result<ChildTable<K, V>, ImportError>
  {
    InsertFrom(DeleteOwned(m, owner, tenant), owner, tenant, items, 0, resolve)
  }

  function ToolRows(): (string, nat) -> Option<(ToolKey, ToolData)> {
    (name: string, i: nat) => Some((ToolKey(BUILTIN, name), ToolData(None, i)))
  }

  function LinkRows(servers: map<Key, ServerRow>, tenant: string): (string, nat) -> Option<(nat, Link)> {
    (name: string, i: nat) =>
      if Key(tenant, name) in servers then Some((servers[Key(tenant, name)].id, Link)) else None
  }

  function RelationRows(agents: map<Key, AgentRow>, tenant: string): (RelationItem, nat) -> Option<(Arrow, string)> {
    (r: RelationItem, i: nat) =>
      if Key(tenant, r.source) in agents && Key(tenant, r.target) in agents
      then Some((Arrow(agents[Key(tenant, r.source)].id, agents[Key(tenant, r.target)].id), EMPTY_JSON))
      else None
  }

  // ---- entity rows: what an item writes over the row that is there, or over a blank one ----

  function BlankModel(id: nat): ModelRow { ModelRow(id, "", "", "", map[], DefaultModelSecret()) }

  function OverModel(row: ModelRow, m: ModelItem): ModelRow {
    row.(provider := m.provider, baseURL := m.baseURL, modelName := m.modelName, extraBody := m.extraBody)
  }

  function BlankServer(id: nat): ServerRow { ServerRow(id, "", "", None, "", None, None, DefaultServerSecret()) }

  // Empty lists and all-placeholder env maps leave the stored value alone.
  function OverServer(row: ServerRow, s: ServerItem): ServerRow {
    var env := WithoutPlaceholders(s.envVars);
    row.(transport := s.transport, command := s.command, url := s.url,
         args := if s.args == [] then row.args else Some(s.args),
         envVars := if env == map[] then row.envVars else Some(env),
         forwardHeaders := if s.forwardHeaders == [] then row.forwardHeaders else Some(s.forwardHeaders))
  }

  function BlankAgent(id: nat): AgentRow {
    AgentRow(id, None, AgentSettings("", "", "", 0, 0, 0, 0, None, None, None), None, None, false)
  }

  function OverAgent(row: AgentRow, a: AgentItem, modelId: Option<nat>): AgentRow {
    row.(modelId := modelId, settings := Defaults(a.settings),
         stopSequences := NonEmpty(a.stopSequences), confirmBefore := NonEmpty(a.confirmBefore))
  }

  function BlankSchema(id: nat): SchemaRow { SchemaRow(id, "", false, None, false, None) }

  function OverSchema(row: SchemaRow, s: SchemaItem, entry: Option<nat>): SchemaRow {
    row.(description := s.description, chatEnabled := s.chatEnabled, entryAgentId := entry)
  }

  function ModelRef(db: Tables, tenant: string, name: string): Option<nat> {
    if name != "" && Key(tenant, name) in db.models then Some(db.models[Key(tenant, name)].id) else None
  }

  function AgentRef(db: Tables, tenant: string, name: string): Option<nat> {
    if name != "" && Key(tenant, name) in db.agents then Some(db.agents[Key(tenant, name)].id) else None
  }

  // ---- one step ----

  function Step(tenant: string): (Tables, Op) -> Result<Tables, ImportError> {
    (db: Tables, op: Op) => Apply(db, tenant, op)
  }

  function Apply(db: Tables, tenant: string, op: Op): Result<Tables, ImportError> {
    match op
    case UpsertModel(m) => Ok(ApplyModel(db, Key(tenant, m.name), m))
    case UpsertServer(s) => Ok(ApplyServer(db, Key(tenant, s.name), s))
    case UpsertAgent(a) =>
      if !ValidBudgets(Defaults(a.settings)) then Err(BadBudget(a.name))
      else if a.modelName != "" && Key(tenant, a.modelName) !in db.models then Err(UnknownReference(a.modelName))
      else Ok(ApplyAgent(db, Key(tenant, a.name), a, ModelRef(db, tenant, a.modelName)))
    case SyncTools(a) =>
      if Key(tenant, a.name) !in db.agents then Err(NotFound)
      else WithTools(db, ReplaceOwned(db.tools, db.agents[Key(tenant, a.name)].id, tenant, a.tools, ToolRows()))
    case SyncLinks(a) =>
      if Key(tenant, a.name) !in db.agents then Err(NotFound)
      else WithLinks(db, ReplaceOwned(db.links, db.agents[Key(tenant, a.name)].id, tenant, a.mcpServers,
                                      LinkRows(db.servers, tenant)))
    case UpsertSchema(s) =>
      if s.name == "" then Err(EmptySchemaName)
      else if Key(tenant, s.name) in db.schemas && db.schemas[Key(tenant, s.name)].isSystem then
        Err(SystemSchema(s.name))
      else if s.entryAgent != "" && Key(tenant, s.entryAgent) !in db.agents then Err(UnknownReference(s.entryAgent))
      else Ok(ApplySchema(db, Key(tenant, s.name), s, AgentRef(db, tenant, s.entryAgent)))
    case ReplaceRelations(s) =>
      if Key(tenant, s.name) !in db.schemas then Err(NotFound)
      else WithRelations(db, ReplaceOwned(db.relations, db.schemas[Key(tenant, s.name)].id, tenant, s.relations,
                                          RelationRows(db.agents, tenant)))
  }

  function ApplyModel(db: Tables, k: Key, m: ModelItem): Tables {
    if k in db.models then db.(models := db.models[k := OverModel(db.models[k], m)])
    else db.(models := db.models[k := OverModel(BlankModel(db.nextId), m)], nextId := db.nextId + 1)
  }

  function ApplyServer(db: Tables, k: Key, s: ServerItem): Tables {
    if k in db.servers then db.(servers := db.servers[k := OverServer(db.servers[k], s)])
    else db.(servers := db.servers[k := OverServer(BlankServer(db.nextId), s)], nextId := db.nextId + 1)
  }

  function ApplyAgent(db: Tables, k: Key, a: AgentItem, modelId: Option<nat>): Tables {
    if k in db.agents then db.(agents := db.agents[k := OverAgent(db.agents[k], a, modelId)])
    else db.(agents := db.agents[k := OverAgent(BlankAgent(db.nextId), a, modelId)], nextId := db.nextId + 1)
  }

  function ApplySchema(db: Tables, k: Key, s: SchemaItem, entry: Option<nat>): Tables {
    if k in db.schemas then db.(schemas := db.schemas[k := OverSchema(db.schemas[k], s, entry)])
    else db.(schemas := db.schemas[k := OverSchema(BlankSchema(db.nextId), s, entry)], nextId := db.nextId + 1)
  }

  function WithTools(db: Tables, r: Result<ChildTable<ToolKey, ToolData>, ImportError>): Result<Tables, ImportError> {
    match r case Ok(m) => Ok(db.(tools := m)) case Err(e) => Err(e)
  }

  function WithLinks(db: Tables, r: Result<ChildTable<nat, Link>, ImportError>): Result<Tables, ImportError> {
    match r case Ok(m) => Ok(db.(links := m)) case Err(e) => Err(e)
  }

  function WithRelations(db: Tables, r: Result<ChildTable<Arrow, string>, ImportError>): Result<Tables, ImportError> {
    match r case Ok(m) => Ok(db.(relations := m)) case Err(e) => Err(e)
  }

  // ---- the whole import ----

  function ModelOps(items: seq<ModelItem>): seq<Op> {
    seq(|items|, i requires 0 <= i < |items| => UpsertModel(items[i]))
  }

  function ServerOps(items: seq<ServerItem>): seq<Op> {
    seq(|items|, i requires 0 <= i < |items| => UpsertServer(items[i]))
  }

  function AgentOps(items: seq<AgentItem>): seq<Op> {
    seq(|items|, i requires 0 <= i < |items| => UpsertAgent(items[i]))
  }

  function SyncOps(items: seq<AgentItem>): seq<Op> {
    if items == [] then [] else [SyncTools(items[0]), SyncLinks(items[0])] + SyncOps(items[1..])
  }

  function SchemaOps(items: seq<SchemaItem>): seq<Op> {
    if items == [] then [] else [UpsertSchema(items[0]), ReplaceRelations(items[0])] + SchemaOps(items[1..])
  }

  // Everything before the quota gate, in the importer's order.
  function EntityOps(doc: ConfigDoc): seq<Op> {
    ModelOps(doc.models) + ServerOps(doc.servers) + AgentOps(doc.agents) + SyncOps(doc.agents)
  }

  // How many schema creations the gate asks the guard to admit.
  function GateRequest(db: Tables, tenant: string, items: seq<SchemaItem>): int {
    |NonEmptyNames(items)| - |ExistingNames(db, tenant, items)|
  }

  function NonEmptyNames(items: seq<SchemaItem>): seq<string> {
    if items == [] then []
    else (if items[0].name != "" then [items[0].name] else []) + NonEmptyNames(items[1..])
  }

  // COUNT(*) of the tenant's schema rows whose name is in the list.
  function ExistingNames(db: Tables, tenant: string, items: seq<SchemaItem>): set<string> {
    set n | n in NonEmptyNames(items) && Key(tenant, n) in db.schemas
  }

  // The guard is a parameter: None is the edition without a quota seam.
  type Guard = Option<nat -> bool>

  predicate Admits(guard: Guard, n: int) {
    n <= 0 || guard.None? || guard.value(n)
  }

  function ImportSchemas(db: Tables, tenant: string, items: seq<SchemaItem>,
                         guard: Guard): Result<Tables, ImportError> {
    if items == [] then Ok(db)
    else if !Admits(guard, GateRequest(db, tenant, items)) then Err(QuotaDenied(GateRequest(db, tenant, items)))
    else FoldSteps(Step(tenant), db, SchemaOps(items))
  }

  function Import(db: Tables, tenant: string, doc: ConfigDoc, guard: Guard): Result<Tables, ImportError> {
    match FoldSteps(Step(tenant), db, EntityOps(doc))
    case Err(e) => Err(e)
    case Ok(db') => ImportSchemas(db', tenant, doc.schemas, guard)
  }
}
