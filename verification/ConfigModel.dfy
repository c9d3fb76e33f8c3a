// Rows and documents of config export/import.
//
// Each table is a map from its unique key: entity tables are keyed by (tenant, name), child
// tables by the owner's id and the rest of their unique index.  Entity rows carry the id the
// database generated; child rows have no surrogate id, because nothing refers to one.
module ConfigModel {
  import opened Prelude

  datatype Key = Key(tenant: string, name: string)

  // ---- entity rows ----

  // `secret` groups the columns of a model that a document never carries.
  datatype ModelSecret = ModelSecret(kind: string, isDefault: bool, apiKey: string, apiVersion: string,
                                     embeddingDim: int, cacheControl: Option<string>)
  datatype ModelRow = ModelRow(id: nat, provider: string, baseURL: string, modelName: string,
                               extraBody: map<string, string>, secret: ModelSecret)

  datatype ServerSecret = ServerSecret(authType: string, authKeyEnv: string, authTokenEnv: string,
                                       authClientId: string, enabled: bool, refreshSeconds: Option<int>)
  datatype ServerRow = ServerRow(id: nat, transport: string, command: string, args: Option<seq<string>>, url: string,
                                 envVars: Option<map<string, string>>, forwardHeaders: Option<seq<string>>,
                                 secret: ServerSecret)

  // The agent columns that are copied verbatim in both directions.
  datatype AgentSettings = AgentSettings(systemPrompt: string, lifecycle: string, toolExecution: string,
                                         maxSteps: int, maxContextSize: int, maxTurnDuration: int,
                                         maxStepDuration: int, temperature: Option<real>, topP: Option<real>,
                                         maxTokens: Option<int>)
  datatype AgentRow = AgentRow(id: nat, modelId: Option<nat>, settings: AgentSettings,
                               stopSequences: Option<seq<string>>, confirmBefore: Option<seq<string>>, isSystem: bool)

  datatype SchemaRow = SchemaRow(id: nat, description: string, chatEnabled: bool, entryAgentId: Option<nat>,
                                 isSystem: bool, chatLastFired: Option<int>)

  // ---- child rows ----

  datatype Child<K> = Child(owner: nat, key: K)
  datatype Owned<V> = Owned(tenant: string, data: V)
  type ChildTable<K(==), V> = map<Child<K>, Owned<V>>

  datatype ToolKey = ToolKey(toolType: string, toolName: string)
  datatype ToolData = ToolData(config: Option<string>, sortOrder: nat)
  datatype Link = Link
  datatype Arrow = Arrow(source: nat, target: nat)

  const BUILTIN := "builtin"
  const EMPTY_JSON := "{}"

  // ---- the database ----

  datatype Tables = Tables(
    nextId: nat,
    models: map<Key, ModelRow>,
    servers: map<Key, ServerRow>,
    agents: map<Key, AgentRow>,
    schemas: map<Key, SchemaRow>,
    tools: ChildTable<ToolKey, ToolData>,
    links: ChildTable<nat, Link>,
    relations: ChildTable<Arrow, string>)

  // ---- the document ----

  datatype ModelItem = ModelItem(name: string, provider: string, baseURL: string, modelName: string,
                                 apiKey: string, extraBody: map<string, string>)
  datatype ServerItem = ServerItem(name: string, transport: string, command: string, args: seq<string>, url: string,
                                   envVars: map<string, string>, forwardHeaders: seq<string>)
  datatype AgentItem = AgentItem(name: string, modelName: string, settings: AgentSettings,
                                 stopSequences: seq<string>, confirmBefore: seq<string>, tools: seq<string>,
                                 canSpawn: seq<string>, mcpServers: seq<string>)
  datatype RelationItem = RelationItem(source: string, target: string)
  datatype SchemaItem = SchemaItem(name: string, description: string, chatEnabled: bool, entryAgent: string,
                                   relations: seq<RelationItem>)
  datatype ConfigDoc = ConfigDoc(agents: seq<AgentItem>, models: seq<ModelItem>, servers: seq<ServerItem>,
                                 schemas: seq<SchemaItem>)

  // ---- small conversions ----

  function DefaultModelSecret(): ModelSecret { ModelSecret("chat", false, "", "", 0, None) }

  function DefaultServerSecret(): ServerSecret { ServerSecret("none", "", "", "", true, None) }

  // A nullable JSON list column: an empty list in a document becomes SQL NULL.
  function NonEmpty<T>(s: seq<T>): Option<seq<T>> { if s == [] then None else Some(s) }

  // A NULL column and a stored empty list both export as "no list".
  function ListOf<T>(o: Option<seq<T>>): seq<T> { if o.Some? then o.value else [] }

  predicate IsEnvPlaceholder(v: string) {
    2 <= |v| && v[..2] == "${" && v[|v| - 1] == '}'
  }

  function Masked(env: map<string, string>): map<string, string> {
    map k | k in env :: "${" + k + "}"
  }

  function WithoutPlaceholders(env: map<string, string>): map<string, string> {
    map k | k in env && !IsEnvPlaceholder(env[k]) :: env[k]
  }

  const MAX_CONTEXT_CEILING := 100_000_000

  function Defaults(s: AgentSettings): AgentSettings {
    s.(lifecycle := if s.lifecycle == "" then "persistent" else s.lifecycle,
       toolExecution := if s.toolExecution == "" then "sequential" else s.toolExecution,
       maxSteps := if s.maxSteps == 0 then 50 else s.maxSteps,
       maxContextSize := if s.maxContextSize == 0 then 16000 else s.maxContextSize,
       maxTurnDuration := if s.maxTurnDuration == 0 then 120 else s.maxTurnDuration)
  }

  predicate ValidBudgets(s: AgentSettings) {
    && (s.maxStepDuration == 0 || 10 <= s.maxStepDuration <= 3600)
    && (s.maxTurnDuration == 0 || 1 <= s.maxTurnDuration <= 86400)
    && 0 <= s.maxContextSize <= MAX_CONTEXT_CEILING
  }

  // What masking writes, the importer always drops again.
  lemma MaskedIsDropped(env: map<string, string>)
    ensures WithoutPlaceholders(Masked(env)) == map[]
  {
    forall k | k in env ensures IsEnvPlaceholder("${" + k + "}") {
      assert ("${" + k + "}")[..2] == "${";
    }
  }
}
