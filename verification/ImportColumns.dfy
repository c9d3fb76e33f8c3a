// What the sections of a document leave in the rows of models, servers and agents: the last word on each
// name, column by column.
module ImportColumns {
  import opened Prelude
  import opened ConfigModel
  import opened ConfigImport

  // ---- the document's last word on a name ----

  function LastModel(items: seq<ModelItem>, n: string): Option<ModelItem> {
    if items == [] then None
    else
      match LastModel(items[1..], n)
      case Some(m) => Some(m)
      case None => if items[0].name == n then Some(items[0]) else None
  }

  function LastServer(items: seq<ServerItem>, n: string): Option<ServerItem> {
    if items == [] then None
    else
      match LastServer(items[1..], n)
      case Some(s) => Some(s)
      case None => if items[0].name == n then Some(items[0]) else None
  }

  // The last lists and variables that say something; an empty list says nothing, and a map says
  // nothing if all its values are placeholders.
  function LastArgs(items: seq<ServerItem>, n: string): Option<seq<string>> {
    if items == [] then None
    else
      match LastArgs(items[1..], n)
      case Some(args) => Some(args)
      case None => if items[0].name == n && items[0].args != [] then Some(items[0].args) else None
  }

  function LastHeaders(items: seq<ServerItem>, n: string): Option<seq<string>> {
    if items == [] then None
    else
      match LastHeaders(items[1..], n)
      case Some(headers) => Some(headers)
      case None => if items[0].name == n && items[0].forwardHeaders != [] then Some(items[0].forwardHeaders) else None
  }

  ghost predicate Placeholder(v: string) { exists w: string :: v == "${" + w + "}" }

  ghost predicate HasReal(env: map<string, string>) { exists k :: k in env && !Placeholder(env[k]) }

  ghost function LastEnv(items: seq<ServerItem>, n: string): Option<map<string, string>> {
    if items == [] then None
    else
      match LastEnv(items[1..], n)
      case Some(env) => Some(env)
      case None => if items[0].name == n && HasReal(items[0].envVars) then Some(items[0].envVars) else None
  }

  function LastAgent(items: seq<AgentItem>, n: string): Option<AgentItem> {
    if items == [] then None
    else
      match LastAgent(items[1..], n)
      case Some(a) => Some(a)
      case None => if items[0].name == n then Some(items[0]) else None
  }

  function LastSchema(items: seq<SchemaItem>, n: string): Option<SchemaItem> {
    if items == [] then None
    else
      match LastSchema(items[1..], n)
      case Some(s) => Some(s)
      case None => if items[0].name == n then Some(items[0]) else None
  }

  lemma {:induction false} PlaceholderExactly(v: string)
    ensures IsEnvPlaceholder(v) <==> Placeholder(v)
  {
    if IsEnvPlaceholder(v) {
      var w := v[2..|v| - 1];
      assert v == v[..2] + w + [v[|v| - 1]];
      assert v == "${" + w + "}";
    }
    if w: string :| v == "${" + w + "}" { assert v[..2] == "${" && v[|v| - 1] == '}'; }
  }

  // The same for a row of the table: a document speaks of its own tenant only.
  function ModelWord(items: seq<ModelItem>, t: string, k: Key): Option<ModelItem> {
    if k.tenant == t then LastModel(items, k.name) else None
  }

  function ServerWords(items: seq<ServerItem>, t: string, k: Key): seq<ServerItem> {
    if k.tenant == t then items else []
  }

  function AgentWord(items: seq<AgentItem>, t: string, k: Key): Option<AgentItem> {
    if k.tenant == t then LastAgent(items, k.name) else None
  }

  function SchemaWord(items: seq<SchemaItem>, t: string, k: Key): Option<SchemaItem> {
    if k.tenant == t then LastSchema(items, k.name) else None
  }

  // ---- models ----

  ghost predicate ModelColumns(db: Tables, f: Tables, k: Key, last: Option<ModelItem>) {
    && (k in f.models <==> k in db.models || last.Some?)
    && (k in f.models && last.Some? ==>
          var row, m := f.models[k], last.value;
          row.provider == m.provider && row.baseURL == m.baseURL && row.modelName == m.modelName
          && row.extraBody == m.extraBody)
    && (k in db.models && k in f.models ==>
          var row := f.models[k];
          && row.id == db.models[k].id && row.secret == db.models[k].secret
          && (last.None? ==> row == db.models[k]))
    && (k !in db.models && k in f.models ==>
          db.nextId <= f.models[k].id && f.models[k].secret == ModelSecret("chat", false, "", "", 0, None))
  }

  ghost predicate ModelsStored(db: Tables, f: Tables, t: string, items: seq<ModelItem>) {
    forall k: Key :: ModelColumns(db, f, k, ModelWord(items, t, k))
  }

  lemma OneModel(db: Tables, t: string, m: ModelItem, rest: seq<ModelItem>, f: Tables)
    requires var db1 := Apply(db, t, UpsertModel(m)).value; ModelsStored(db1, f, t, rest)
    ensures ModelsStored(db, f, t, [m] + rest)
  {
    var db1 := Apply(db, t, UpsertModel(m)).value;
    assert ([m] + rest)[1..] == rest;
    forall k: Key ensures ModelColumns(db, f, k, ModelWord([m] + rest, t, k)) {
      assert ModelColumns(db1, f, k, ModelWord(rest, t, k));
    }
  }

  lemma {:induction false} ModelSection(db: Tables, t: string, items: seq<ModelItem>)
    ensures FoldSteps(Step(t), db, ModelOps(items)).Ok?
    ensures var f := FoldSteps(Step(t), db, ModelOps(items)).value;
            && ModelsStored(db, f, t, items)
            && f == db.(models := f.models, nextId := f.nextId) && db.nextId <= f.nextId
    decreases |items|
  {
    if items != [] {
      var db1 := Apply(db, t, UpsertModel(items[0])).value;
      assert ModelOps(items)[1..] == ModelOps(items[1..]);
      ModelSection(db1, t, items[1..]);
      OneModel(db, t, items[0], items[1..], FoldSteps(Step(t), db, ModelOps(items)).value);
      assert [items[0]] + items[1..] == items;
    }
  }

  // ---- servers ----

  // A stored map that holds exactly the real values of `env`.
  ghost predicate HoldsReal(stored: Option<map<string, string>>, env: map<string, string>) {
    && stored.Some?
    && (forall v :: v in stored.value <==> v in env && !Placeholder(env[v]))
    && (forall v :: v in stored.value ==> v in env && stored.value[v] == env[v])
  }

  ghost predicate EnvStored(stored: Option<map<string, string>>, before: Option<map<string, string>>,
                            last: Option<map<string, string>>) {
    match last
    case None => stored == before
    case Some(env) => HoldsReal(stored, env)
  }

  function ArgsBefore(db: Tables, k: Key): Option<seq<string>> {
    if k in db.servers then db.servers[k].args else None
  }

  function HeadersBefore(db: Tables, k: Key): Option<seq<string>> {
    if k in db.servers then db.servers[k].forwardHeaders else None
  }

  function EnvBefore(db: Tables, k: Key): Option<map<string, string>> {
    if k in db.servers then db.servers[k].envVars else None
  }

  ghost predicate ServerColumns(db: Tables, f: Tables, k: Key, items: seq<ServerItem>) {
    && (k in f.servers <==> k in db.servers || LastServer(items, k.name).Some?)
    && ServerWritten(f, k, LastServer(items, k.name)) && ServerKept(db, f, k, LastServer(items, k.name))
    && ListsStored(db, f, k, LastArgs(items, k.name), LastHeaders(items, k.name))
    && (k in f.servers ==> EnvStored(f.servers[k].envVars, EnvBefore(db, k), LastEnv(items, k.name)))
  }

  predicate ServerWritten(f: Tables, k: Key, last: Option<ServerItem>) {
    k in f.servers && last.Some? ==>
      var row, s := f.servers[k], last.value;
      row.transport == s.transport && row.command == s.command && row.url == s.url
  }

  predicate ServerKept(db: Tables, f: Tables, k: Key, last: Option<ServerItem>) {
    k in f.servers ==>
      var row := f.servers[k];
      if k in db.servers then
        row.id == db.servers[k].id && row.secret == db.servers[k].secret && (last.None? ==> row == db.servers[k])
      else db.nextId <= row.id && row.secret == ServerSecret("none", "", "", "", true, None)
  }

  // The last list that says something, or the one there was.
  predicate ListsStored(db: Tables, f: Tables, k: Key, args: Option<seq<string>>, headers: Option<seq<string>>) {
    k in f.servers ==>
      && f.servers[k].args == (if args.Some? then args else ArgsBefore(db, k))
      && f.servers[k].forwardHeaders == (if headers.Some? then headers else HeadersBefore(db, k))
  }

  ghost predicate ServersStored(db: Tables, f: Tables, t: string, items: seq<ServerItem>) {
    forall k: Key :: ServerColumns(db, f, k, ServerWords(items, t, k))
  }

  // One server item over whatever was there.
  lemma ServerStep(db: Tables, t: string, s: ServerItem)
    ensures ServersStored(db, Apply(db, t, UpsertServer(s)).value, t, [s])
  {
    var f := Apply(db, t, UpsertServer(s)).value;
    forall v: string ensures IsEnvPlaceholder(v) <==> Placeholder(v) { PlaceholderExactly(v); }
    var kept := WithoutPlaceholders(s.envVars);
    assert kept == map[] <==> !HasReal(s.envVars) by {
      if HasReal(s.envVars) {
        var v :| v in s.envVars && !Placeholder(s.envVars[v]);
        assert v in kept;
      }
      if kept != map[] {
        var v :| v in kept;
        assert !Placeholder(s.envVars[v]);
      }
    }
    forall k: Key ensures ServerColumns(db, f, k, ServerWords([s], t, k)) {
      LastOfMore(s, [], k.name);
      if k == Key(t, s.name) && HasReal(s.envVars) { assert HoldsReal(f.servers[k].envVars, s.envVars); }
    }
  }

  lemma LastOfMore(s: ServerItem, rest: seq<ServerItem>, n: string)
    ensures LastServer([s], n) == if s.name == n then Some(s) else None
    ensures LastArgs([s], n) == if s.name == n && s.args != [] then Some(s.args) else None
    ensures LastHeaders([s], n) == if s.name == n && s.forwardHeaders != [] then Some(s.forwardHeaders) else None
    ensures LastEnv([s], n) == if s.name == n && HasReal(s.envVars) then Some(s.envVars) else None
    ensures LastServer([s] + rest, n) == if LastServer(rest, n).Some? then LastServer(rest, n) else LastServer([s], n)
    ensures LastArgs([s] + rest, n) == if LastArgs(rest, n).Some? then LastArgs(rest, n) else LastArgs([s], n)
    ensures LastHeaders([s] + rest, n)
         == if LastHeaders(rest, n).Some? then LastHeaders(rest, n) else LastHeaders([s], n)
    ensures LastEnv([s] + rest, n) == if LastEnv(rest, n).Some? then LastEnv(rest, n) else LastEnv([s], n)
  {
    assert [s][1..] == [] && ([s] + rest)[1..] == rest && ([s] + rest)[0] == s;
  }

  lemma ServerChain(db: Tables, db1: Tables, f: Tables, k: Key, s: ServerItem, rest: seq<ServerItem>)
    requires ServerColumns(db, db1, k, [s]) && ServerColumns(db1, f, k, rest) && db.nextId <= db1.nextId
    ensures ServerColumns(db, f, k, [s] + rest)
  {
    LastOfMore(s, rest, k.name);
    assert k !in db1.servers ==> k !in db.servers && LastServer([s], k.name).None?;
    if k in f.servers && k !in db1.servers { assert s.name != k.name; }
  }

  lemma {:induction false} ServerSection(db: Tables, t: string, items: seq<ServerItem>)
    ensures FoldSteps(Step(t), db, ServerOps(items)).Ok?
    ensures var f := FoldSteps(Step(t), db, ServerOps(items)).value;
            && ServersStored(db, f, t, items)
            && f == db.(servers := f.servers, nextId := f.nextId) && db.nextId <= f.nextId
    decreases |items|
  {
    if items != [] {
      var db1 := Apply(db, t, UpsertServer(items[0])).value;
      assert ServerOps(items)[1..] == ServerOps(items[1..]);
      ServerSection(db1, t, items[1..]);
      ServerStep(db, t, items[0]);
      var f := FoldSteps(Step(t), db, ServerOps(items)).value;
      assert [items[0]] + items[1..] == items;
      forall k: Key ensures ServerColumns(db, f, k, ServerWords(items, t, k)) {
        assert ServerColumns(db, db1, k, ServerWords([items[0]], t, k));
        assert ServerColumns(db1, f, k, ServerWords(items[1..], t, k));
        if k.tenant == t { ServerChain(db, db1, f, k, items[0], items[1..]); }
      }
    } else {
      forall k: Key ensures ServerColumns(db, db, k, []) {}
    }
  }

  // ---- agents ----

  // What the importer demands of an agent's budgets, before its defaults are filled in.
  predicate InBudget(a: AgentItem) {
    && (a.settings.maxStepDuration == 0 || 10 <= a.settings.maxStepDuration <= 3600)
    && 0 <= a.settings.maxTurnDuration <= 86_400
    && 0 <= a.settings.maxContextSize <= 100_000_000
  }

  predicate AgentColumns(row: AgentRow, a: AgentItem) {
    var s, r := a.settings, row.settings;
    && r.systemPrompt == s.systemPrompt && r.maxStepDuration == s.maxStepDuration
    && r.temperature == s.temperature && r.topP == s.topP && r.maxTokens == s.maxTokens
    && r.lifecycle == (if s.lifecycle == "" then "persistent" else s.lifecycle)
    && r.toolExecution == (if s.toolExecution == "" then "sequential" else s.toolExecution)
    && r.maxSteps == (if s.maxSteps == 0 then 50 else s.maxSteps)
    && r.maxContextSize == (if s.maxContextSize == 0 then 16_000 else s.maxContextSize)
    && r.maxTurnDuration == (if s.maxTurnDuration == 0 then 120 else s.maxTurnDuration)
    && row.stopSequences == (if a.stopSequences == [] then None else Some(a.stopSequences))
    && row.confirmBefore == (if a.confirmBefore == [] then None else Some(a.confirmBefore))
  }

  // The agent refers to the tenant's own model of the name.
  predicate ModelLinked(f: Tables, t: string, row: AgentRow, a: AgentItem) {
    if a.modelName == "" then row.modelId == None
    else Key(t, a.modelName) in f.models && row.modelId == Some(f.models[Key(t, a.modelName)].id)
  }

  predicate AgentWritten(f: Tables, t: string, k: Key, last: Option<AgentItem>) {
    k in f.agents && last.Some? ==> AgentColumns(f.agents[k], last.value) && ModelLinked(f, t, f.agents[k], last.value)
  }

  predicate AgentKept(db: Tables, f: Tables, k: Key, last: Option<AgentItem>) {
    k in f.agents ==>
      var row := f.agents[k];
      if k in db.agents then
        row.id == db.agents[k].id && row.isSystem == db.agents[k].isSystem && (last.None? ==> row == db.agents[k])
      else db.nextId <= row.id && !row.isSystem
  }

  predicate AgentStored(db: Tables, f: Tables, t: string, k: Key, last: Option<AgentItem>) {
    (k in f.agents <==> k in db.agents || last.Some?) && AgentWritten(f, t, k, last) && AgentKept(db, f, k, last)
  }

  ghost predicate AgentsStored(db: Tables, f: Tables, t: string, items: seq<AgentItem>) {
    forall k: Key :: AgentStored(db, f, t, k, AgentWord(items, t, k))
  }

  predicate AgentAccepted(db: Tables, t: string, a: AgentItem) {
    InBudget(a) && (a.modelName != "" ==> Key(t, a.modelName) in db.models)
  }

  lemma AgentStepAccepted(db: Tables, t: string, a: AgentItem)
    ensures Apply(db, t, UpsertAgent(a)).Ok? <==> AgentAccepted(db, t, a)
  {
  }

  lemma AgentRowWritten(row: AgentRow, a: AgentItem, modelId: Option<nat>)
    ensures AgentColumns(OverAgent(row, a, modelId), a)
  {
  }

  lemma LastOfMoreAgents(a: AgentItem, rest: seq<AgentItem>, t: string, k: Key)
    ensures AgentWord([a], t, k) == if k == Key(t, a.name) then Some(a) else None
    ensures AgentWord([a] + rest, t, k)
         == if AgentWord(rest, t, k).Some? then AgentWord(rest, t, k) else AgentWord([a], t, k)
  {
    assert [a][1..] == [] && ([a] + rest)[1..] == rest && ([a] + rest)[0] == a;
    assert k == Key(k.tenant, k.name);
    assert LastAgent([a], k.name) == if a.name == k.name then Some(a) else None;
  }

  lemma AgentStep(db: Tables, t: string, a: AgentItem)
    requires Apply(db, t, UpsertAgent(a)).Ok?
    ensures var f := Apply(db, t, UpsertAgent(a)).value;
            && f == db.(agents := f.agents, nextId := f.nextId) && db.nextId <= f.nextId
            && AgentsStored(db, f, t, [a])
  {
    var f, k := Apply(db, t, UpsertAgent(a)).value, Key(t, a.name);
    var modelId := ModelRef(db, t, a.modelName);
    var before := if k in db.agents then db.agents[k] else BlankAgent(db.nextId);
    assert f.agents == db.agents[k := OverAgent(before, a, modelId)];
    AgentRowWritten(before, a, modelId);
    forall x: Key ensures AgentStored(db, f, t, x, AgentWord([a], t, x)) { LastOfMoreAgents(a, [], t, x); }
  }

  lemma AgentChain(db: Tables, db1: Tables, f: Tables, t: string, k: Key, a: Option<AgentItem>, rest: Option<AgentItem>)
    requires AgentStored(db, db1, t, k, a) && AgentStored(db1, f, t, k, rest)
    requires db.nextId <= db1.nextId && db1.models == f.models
    ensures AgentStored(db, f, t, k, if rest.Some? then rest else a)
  {
  }

  lemma AgentsChain(db: Tables, db1: Tables, f: Tables, t: string, a: AgentItem, rest: seq<AgentItem>)
    requires AgentsStored(db, db1, t, [a]) && AgentsStored(db1, f, t, rest)
    requires db.nextId <= db1.nextId && db1.models == f.models
    ensures AgentsStored(db, f, t, [a] + rest)
  {
    forall k: Key ensures AgentStored(db, f, t, k, AgentWord([a] + rest, t, k)) {
      LastOfMoreAgents(a, rest, t, k);
      AgentChain(db, db1, f, t, k, AgentWord([a], t, k), AgentWord(rest, t, k));
    }
  }

  lemma {:induction false} AgentSectionAccepted(db: Tables, t: string, items: seq<AgentItem>)
    ensures FoldSteps(Step(t), db, AgentOps(items)).Ok? <==> forall a :: a in items ==> AgentAccepted(db, t, a)
    decreases |items|
  {
    if items != [] {
      var a, rest := items[0], items[1..];
      assert AgentOps(items)[1..] == AgentOps(rest) && items == [a] + rest;
      AgentStepAccepted(db, t, a);
      if Apply(db, t, UpsertAgent(a)).Ok? {
        var db1 := Apply(db, t, UpsertAgent(a)).value;
        AgentSectionAccepted(db1, t, rest);
        assert db1.models == db.models;
        assert forall x :: AgentAccepted(db1, t, x) <==> AgentAccepted(db, t, x);
      }
    }
  }

  lemma {:induction false} AgentSection(db: Tables, t: string, items: seq<AgentItem>)
    requires FoldSteps(Step(t), db, AgentOps(items)).Ok?
    ensures var f := FoldSteps(Step(t), db, AgentOps(items)).value;
            && AgentsStored(db, f, t, items)
            && f == db.(agents := f.agents, nextId := f.nextId) && db.nextId <= f.nextId
    decreases |items|
  {
    if items != [] {
      var a, rest := items[0], items[1..];
      assert AgentOps(items)[1..] == AgentOps(rest) && items == [a] + rest;
      var db1 := Apply(db, t, UpsertAgent(a)).value;
      AgentStep(db, t, a);
      AgentSection(db1, t, rest);
      AgentsChain(db, db1, FoldSteps(Step(t), db, AgentOps(items)).value, t, a, rest);
    }
  }
}
