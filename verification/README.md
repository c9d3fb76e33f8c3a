# SyntheticBrew: a model of the stateful core

SyntheticBrew is a multi-tenant agent engine with an embeddable chat widget.  This project models
the parts of it where several tables, caches, turns or text chunks have to agree with each other,
and proves what they keep.  Imperative code is modelled by classes, methods and loops that are
proved against specification functions; the theorems are about those functions, for all inputs and
all runs.  Concurrent code is modelled as atomic steps that any number of callers interleave.

| files | what they model |
|---|---|
| ConfigModel, ConfigImport, ConfigStore | the configuration tables, the import as a function, and the import as loops over tables updated in place |
| ChildTables, Writes, ConfigLaws, ImportRuns, ImportTheorems, SlotOutcomes, ReferenceClosure | what one import step does, runs of steps, idempotence, the quota gate, tenant isolation, reference closure |
| ImportColumns, ImportChildren, ImportContents | which documents an import accepts, and what every column holds after any successful import |
| ExportView | what an export shows and what it cannot show |
| ConfigExport, ConfigReader, SettledRows, RoundTrip, TenantRestore, FreshImport, ReExport, TenantMove | the export, and the round trips between export and import |
| FlexList | the two document formats of a list |
| UsageGate, StepAccounting, InterruptResume | concurrent chat turns: usage limits, step counts, resuming interrupts |
| SpawnStash, SpawnChain | agents that spawn agents |
| DelegationGraph, DelegationRelations, DelegationEntries, DelegationRaces | the delegation graph and the entry agents, served one request at a time, and the graph under concurrent requests |
| Timeline, ByokCache, PrefixCache | rows written over time, and caches of them per tenant with a time to live |
| Text, SseReader, StandardSse, Markdown, MarkdownLines | the widget's stream reader, the standard it reads, HTML escaping and list rendering |
| EngineTask, Egress, KgTools | task life cycle, destination addresses, generated tool names |
| Prelude | Option, Result, distinct sequences, folds of fallible steps |

`dafny verify dfyconfig.toml` checks everything.

## What the proofs found

Where a promise of the code or its comments does not hold on all inputs, the exact condition is
proved and the code is modelled as it is.

- Importing a document twice is idempotent exactly if the quota guard admits one creation per
  repeated schema name; with repeated names the second import still asks the guard for them
  (`ImportTheorems.ImportIdempotent`).
- A tenant can re-import its export exactly if its budgets are in range, no agent holds a tool name
  twice, every exported schema has a name, and the names of what its rows refer to are names of its
  own rows, no owner naming one twice.  Models and servers then come back as they were; agents exactly
  if their budgets are set, no list column holds an empty list and a model referred to is the tenant's
  and has a name; links and the endpoints of relations exactly if they lead to the tenant's rows;
  schemas exactly if the entry agents referred to are the tenant's and have names; tools exactly if
  they are builtin, without settings and numbered from zero; relations exactly if besides they store
  no settings (`TenantRestore.RestoreTenant`).
- The relation check and the insert are separate statements, so two concurrent creates can close a
  cycle (`DelegationRaces.TwoCreatesCloseACycle`); a write closes one exactly if an edge that landed
  since its check lies on a way back (`DelegationRaces.InterleavingsAcyclicIff`).
- The import writes relations without the cycle check, so the graphs stay acyclic over a run exactly
  if no import brings a cycle (`DelegationRelations.RunsStayAcyclic`).
- The REST create makes the source of its relation the entry agent of a schema that has none
  (`DelegationEntries.FirstSourceIsEntry`).  An admin create in a schema without one, clearing the
  entry, deleting the entry agent while a relation stays, and importing relations without an entry
  leave a related schema without; no other of these requests does (`DelegationEntries.EntriesStay`).
- The accumulator's comment asks every opening to be matched by a take or a discard.  A second turn
  on a live session loses a step exactly if one was made in between
  (`StepAccounting.NothingOverwritten`), and a session stays registered after its turn exactly if the
  message could not be queued (`StepAccounting.LeftRegisteredExactly`).
- An interrupt is resumed at most once, but not exactly once: the guards on entry agent, registry and
  queue come after the update, and the winner's answer arrives exactly if all three let it pass
  (`InterruptResume.WinnerResumesIff`, `InterruptResume.StrandedRun`).  The update that abandons tests
  for pending only in its subquery, so that under READ COMMITTED an interrupt resolved in between ends
  abandoned (`InterruptResume.WinnerOverwritten`), and in no other way (`InterruptResume.SettledForGood`).
- The own-key configuration is read from two rows, one after the other, so the served pair can be
  one that the rows never held (`ByokCache.PairCanBeTorn`); it was held for sure exactly if all changes
  of the list between the reads come before those of the switch (`ByokCache.PairHeldExactly`).  And an
  invalidation fails exactly if a load of the tenant holds a value that its rows no longer hold
  (`ByokCache.InvalidationTakesEffect`), which only one that read before the tenant's own last write
  can (`ByokCache.NewValueServed`).
- A full prompt prefix cache is dropped even to refresh a tenant that it holds
  (`PrefixCache.RefreshCanReset`).
- The comments on the task operations say that starting needs an approved or queued task and
  failing one in progress; the code accepts both for a task that needs input as well, and a new
  priority even for a finished task (`EngineTask.Accepted`).  A task that needs input cannot
  be completed (`EngineTask.WaysToEnd`).
- In IPv4-compatible form the address 0.0.0.1 is judged differently from its plain form, and it is
  the only one (`Egress.CompatibleVerdict`).
- The stream reader recognises only lines that start with `event: ` and `data: `, with the space,
  and reports every data line on its own; section 9.2 of the WHATWG HTML standard also allows the
  fields without the space and joins the data lines of one event.  `StandardSse.AgreesExactly` gives
  the streams on which both make the same calls, `StandardSse.NoSpaceIsLost` inputs on which they do
  not; on the engine's own stream they agree exactly if no event name has outer whitespace
  (`StandardSse.EngineStream`).
- The comment on the spawner's stash says that it is keyed by session; the key is tenant, slash and
  session, which is injective for tenant ids without a slash (`SpawnStash.SharedBucket`).

## Model

| member | source | states |
|---|---|---|
| ConfigModel.MaskedIsDropped | engine/internal/app/config_import_export_http_adapter.go:716-718 | every env map that the export masks is emptied again by the importer, so no placeholder is ever stored |
| ConfigLaws.StepClosed | engine/internal/app/config_import_export_http_adapter.go:422-915 | one import step succeeds exactly if its item is valid (budgets in range, every name resolves, child rows distinct, no system schema), and then performs one resolved write |
| ConfigLaws.DoKeepsWellFormed | engine/internal/app/config_import_export_http_adapter.go:422-915 | ids stay unique and below the counter, and child rows keep the tenant of their owner, through every write |
| ChildTables.ReplaceClosed | engine/internal/app/config_import_export_http_adapter.go:656-697 | delete-then-recreate of an owner's child rows succeeds iff all items resolve to distinct unique keys, and then swaps exactly that owner's rows |
| ChildTables.SwapCommutes | engine/internal/app/config_import_export_http_adapter.go:656-697 | replacing the child rows of two owners commutes |
| ImportRuns.StepMakesReady | engine/internal/app/config_import_export_http_adapter.go:422-915 | a step repeated at once succeeds again and changes nothing |
| ImportRuns.SimilarFold | engine/internal/app/config_import_export_http_adapter.go:422-915 | what one item would overwrite anyway cannot influence the state after any later list of items |
| ImportRuns.FoldIdempotent | engine/internal/app/config_import_export_http_adapter.go:422-528 | running any list of import steps over its own result changes nothing, repeated names included: the last item wins in both runs |
| ImportTheorems.ImportIsFold | engine/internal/app/config_import_export_http_adapter.go:313-372 | an import succeeds exactly if the quota gate opens and all its steps succeed in order |
| ImportTheorems.GateCoversInserts | engine/internal/app/config_import_export_http_adapter.go:779-885 | the gate asks for the inserted schema rows plus one per repeated name: never fewer, and equal iff the names are distinct |
| ImportTheorems.ImportIdempotent | engine/internal/app/config_import_export_http_adapter.go:313-372 | importing a document over its own result gives the same database exactly if the guard admits one creation per repeated schema name; otherwise it is refused |
| ImportTheorems.ImportIsolatesTenants | engine/internal/app/config_import_export_http_adapter.go:313-372 | an import changes no row, parent or child, of any other tenant |
| ImportContents.ImportAccepts | engine/internal/app/config_import_export_http_adapter.go:313-372 | any import succeeds iff the document's agents are in budget, no list of tools, servers or relations repeats an entry, every schema has a name and is no system schema, every name referred to is in the document or one of the tenant's rows, and the guard admits the schema items less the distinct names that are there |
| ImportContents.ImportStores | engine/internal/app/config_import_export_http_adapter.go:422-915 | after any successful import, repeated names included, every column of every row is the document's last word on that name or what it was: of a server's variables exactly the values of the last item that has one which is no placeholder, without the placeholders, under their own names, and the stored map if there is no such item; tools, links and relations of named owners are the document's, all others stay |
| SlotOutcomes.DistinctRun | engine/internal/app/config_import_export_http_adapter.go:422-915 | after a run with distinct names each row holds what its own item wrote over the old row, and every other row is untouched |
| ReferenceClosure.ImportKeepsClosed | engine/internal/app/config_import_export_http_adapter.go:313-372 | a successful import of any document keeps every model, server and agent reference of the tenant inside the tenant |
| TenantRestore.RestoreTenant | engine/internal/app/config_import_export_http_adapter.go:188-372 | importing a tenant's own export succeeds iff the rows are importable and every name it refers to is one of the tenant's rows, named once; then models and servers, unexported columns included, are always what they were, links iff they lead to the tenant's servers, the endpoints of relations iff they are the tenant's agents, agents iff the rows are in normal form with the tenant's models, schemas iff they name the tenant's entry agents, tools iff they are plain, relations iff besides they store no settings |
| TenantRestore.RestoreInsideTenant | engine/internal/app/config_import_export_http_adapter.go:188-372 | for a tenant whose references stay inside it the import succeeds iff the rows are importable, and links and the endpoints of relations always stay |
| TenantRestore.OutsideReferences | engine/internal/app/config_import_export_http_adapter.go:600-654 | after the import an agent has the tenant's own model of the exported name, wherever its reference led before, and a schema whose entry agent is outside the tenant has none |
| TenantRestore.SameTenantRoundTrip | engine/internal/app/config_import_export_http_adapter.go:188-372 | importing a tenant's own export gives back the identical database, unexported columns included, exactly if the tenant is in normal form (Normal in ConfigExport.dfy) and its references stay inside it |
| FreshImport.FreshImportSucceeds | engine/internal/app/config_import_export_http_adapter.go:313-372 | a closed document imports into an empty tenant iff its budgets are in range, no agent repeats a tool, every schema is named and the guard admits them all; no reference can fail to resolve |
| ReExport.ImportThenExport | engine/internal/app/config_import_export_http_adapter.go:188-310 | exporting the result of an import into an empty tenant gives the document back up to default coercion and dropped env placeholders |
| TenantMove.ClosedIsInside | engine/internal/app/config_import_export_http_adapter.go:188-310 | a tenant whose rows refer only to its own rows, as imports keep it, is one whose exported references stay inside it |
| TenantMove.ExportIsClosed | engine/internal/app/config_import_export_http_adapter.go:188-310 | the export of a tenant whose references stay inside it refers only to its own items and repeats no child row |
| TenantMove.MoveTenant | engine/internal/app/config_import_export_http_adapter.go:313-372 | the export of a tenant whose references stay inside it imports into an empty tenant iff its rows are importable and the guard admits the schemas; the copy exports as the same document with defaults filled in and env values gone |
| ConfigStore.ConfigDatabase.ImportModels | engine/internal/app/config_import_export_http_adapter.go:422-456 | models are inserted or overwritten by name, keeping the columns that a document does not carry |
| ConfigStore.ConfigDatabase.ImportServer | engine/internal/app/config_import_export_http_adapter.go:459-528 | one MCP server is inserted or overwritten by the specified step, whose columns ImportContents.ImportStores gives; empty lists and all-placeholder env maps leave the stored value |
| ConfigStore.ConfigDatabase.ImportServers | engine/internal/app/config_import_export_http_adapter.go:459-528 | all servers, in order, each over the outcome of the ones before |
| ConfigStore.ConfigDatabase.ImportAgentRecord | engine/internal/app/config_import_export_http_adapter.go:548-654 | one agent is inserted or overwritten after its budgets and model name were checked; on an error nothing changed |
| ConfigStore.ConfigDatabase.ImportAgentRecords | engine/internal/app/config_import_export_http_adapter.go:548-620 | first pass: the first failing agent stops the pass with its error |
| ConfigStore.ConfigDatabase.SyncAgentTools | engine/internal/app/config_import_export_http_adapter.go:656-697 | the agent's tool rows become the document's, numbered in order; a repeated tool is an error |
| ConfigStore.ConfigDatabase.SyncAgentLinks | engine/internal/app/config_import_export_http_adapter.go:656-697 | the agent's server links become the document's; an unknown server is an error |
| ConfigStore.ConfigDatabase.SyncAgents | engine/internal/app/config_import_export_http_adapter.go:620-654 | second pass over the agents that the first pass created |
| ConfigStore.ConfigDatabase.UpsertSchemaRow | engine/internal/app/config_import_export_http_adapter.go:847-885 | a schema row is inserted or overwritten; an empty name, a system schema or an unknown entry agent is refused |
| ConfigStore.ConfigDatabase.ReplaceSchemaRelations | engine/internal/app/config_import_export_http_adapter.go:889-915 | the schema's relations are deleted and recreated from the document |
| ConfigStore.ConfigDatabase.ImportSchema | engine/internal/app/config_import_export_http_adapter.go:779-811 | row and relations of one schema, in this order |
| ConfigStore.ConfigDatabase.ImportSchemaList | engine/internal/app/config_import_export_http_adapter.go:779-843 | the quota gate runs first, then schema by schema |
| ConfigStore.ConfigDatabase.ImportEntities | engine/internal/app/config_import_export_http_adapter.go:328-342 | models, servers, agents, agent relations, in this order |
| ConfigStore.ConfigDatabase.ImportConfig | engine/internal/app/config_import_export_http_adapter.go:313-372 | the whole import as one transaction: its result is the specified one, and on any error the database is what it was |
| ConfigReader.ExportTools | engine/internal/app/config_import_export_http_adapter.go:188-248 | tools are listed by sort order |
| ConfigReader.ExportLinks | engine/internal/app/config_import_export_http_adapter.go:188-248 | each linked server once, by name |
| ConfigReader.ExportRelations | engine/internal/app/config_import_export_http_adapter.go:723-772 | each relation of the schema once, ids translated to agent names |
| ConfigReader.ExportModels | engine/internal/app/config_import_export_http_adapter.go:250-268 | exactly the tenant's models, each once, without its key |
| ConfigReader.ExportServers | engine/internal/app/config_import_export_http_adapter.go:270-310 | exactly the tenant's servers, each once, env values masked (ExportView.ExportTellsNothing says what that hides) |
| ConfigReader.ExportAgent | engine/internal/app/config_import_export_http_adapter.go:188-248 | the item names the model, tools and servers that the row refers to by id |
| ConfigReader.ExportAgents | engine/internal/app/config_import_export_http_adapter.go:188-248 | exactly the tenant's agents, each once |
| ConfigReader.ExportSchema | engine/internal/app/config_import_export_http_adapter.go:723-772 | the entry agent is named only if it is the tenant's own |
| ConfigReader.ExportSchemas | engine/internal/app/config_import_export_http_adapter.go:723-772 | exactly the tenant's non-system schemas, each once |
| ConfigReader.ExportConfig | engine/internal/app/config_import_export_http_adapter.go:66-119 | whatever order the rows come in, the document is an export of the tenant |
| ExportView.ExportTellsNothing | engine/internal/app/config_import_export_http_adapter.go:188-310 | two databases that differ only in API keys, values of variables and other columns no document carries have the same exports: nothing can be learnt about them |
| ExportView.ExportShowsPlaceholders | engine/internal/app/config_import_export_http_adapter.go:270-310 | an export shows no API key, and of a server's variables exactly the names, each with "${name}" as its value |
| FlexList.List.DecodeMap | engine/internal/app/config_yaml_types.go:98-112 | items are appended pair by pair up to the first that cannot be decoded; those before it stay |
| FlexList.List.Unmarshal | engine/internal/app/config_yaml_types.go:85-96 | a sequence, a mapping or an empty scalar is accepted, anything else is an error |
| FlexList.FormatsAgree | engine/internal/app/config_yaml_types.go:63-131 | a list written as a mapping from names decodes to the same items, names and order as written as a sequence, for every inverse pair of item coders |
| FlexList.NamedByKeys | engine/internal/app/config_yaml_types.go:98-131 | each item of a decoded mapping is what its node decodes to, but for a missing name, which is the key |
| DelegationGraph.AddEdgeAcyclic | engine/internal/usecase/agentrelationcreate/usecase.go:79-102 | one more edge keeps an acyclic graph acyclic iff its source cannot be reached from its target |
| DelegationRelations.Expand | engine/internal/usecase/agentrelationcreate/usecase.go:118-127 | following one agent's edges adds exactly its targets to the visited agents, unless the goal is among them |
| DelegationRelations.Reachable | engine/internal/usecase/agentrelationcreate/usecase.go:108-129 | the breadth-first search answers true iff there is a path, on any graph, cycles included |
| DelegationRelations.RelationService.CheckNoCycle | engine/internal/usecase/agentrelationcreate/usecase.go:79-102 | accepts iff the endpoints differ and the edge closes no cycle in the schema's graph without the excluded relation |
| DelegationRelations.RelationService.CreateRelation | engine/internal/app/http_adapters_schema.go:429-476 | refusals in the code's order, none of them exactly under the condition of CreateAccepted; otherwise one new row, and the entry agent set if the schema had none |
| DelegationRelations.RelationService.UpdateRelation | engine/internal/app/http_adapters_schema.go:478-515 | the update is checked against the graph without its own old edge; on a refusal nothing changed |
| DelegationRelations.RelationService.DeleteRelation | engine/internal/app/http_adapters_schema.go:518-526 | deletes the row or reports that there is none |
| DelegationRelations.PutKeepsAcyclic | engine/internal/usecase/agentrelationcreate/usecase.go:79-102 | writing a checked relation keeps every schema's graph acyclic |
| DelegationRelations.RunsStayAcyclic | engine/internal/app/http_adapters_schema.go:429-526 | over every run of REST and admin creates, updates, deletions of relations, schemas and agents, entry agent changes and imports, every schema's graph stays acyclic throughout iff no accepted import brings a graph with a cycle |
| DelegationRelations.Imported | engine/internal/app/config_import_export_http_adapter.go:847-915 | after an import a schema has the graph and the entry agent of the document's last word on it; a schema it does not name keeps its own |
| DelegationRelations.ImportKeepsSound | engine/internal/app/config_import_export_http_adapter.go:889-915 | the import checks no cycles: it keeps the graphs acyclic iff no graph it leaves has a cycle |
| DelegationRelations.RefusedEdgeWouldCycle | engine/internal/app/admin_adapters.go:478-508 | on the REST and on the admin path a create is refused for a cycle iff the edge would close one |
| DelegationRelations.CreateAccepted | engine/internal/app/http_adapters_schema.go:429-476 | on the REST and on the admin path a create is accepted iff the schema is there, the ends differ, the edge is not there yet and there is no way back from its target to its source |
| DelegationRelations.UpdateAccepted | engine/internal/app/http_adapters_schema.go:478-515 | an update is accepted iff the relation is there, the ends differ, no other relation of the schema is that edge and the other relations give no way back |
| DelegationRelations.CreateAddsEdge | engine/internal/app/http_adapters_schema.go:446-476 | an accepted create adds exactly its edge, in its schema, with its settings; the admin create stores the same rows |
| DelegationRelations.NoEdgeTwice | engine/internal/infrastructure/persistence/models/agent_relation.go:16-18 | over every run of all requests, imports included, no schema stores an edge twice |
| DelegationRelations.EntryAccepted | engine/internal/app/http_adapters_schema.go:238-261 | an entry agent is accepted iff the schema is there and has no edge yet or the agent is an end of one; clearing always; nothing else changes |
| DelegationRelations.DroppedAgentsGone | engine/internal/app/agent_manager_http_adapter.go:488-529 | after a deletion the deleted agents are in no relation and are no entry agent, and all other edges and entries stay; the admin deletion is accepted iff the agent is no schema's entry |
| DelegationRelations.DroppedComesBackEmpty | engine/internal/infrastructure/persistence/configrepo/schema_repository.go:213-235 | a schema that is deleted and created anew has no edges and the entry it is given, other schemas keep theirs; it cannot be created while it is there |
| DelegationRelations.ResaveNeverCycles | engine/internal/app/http_adapters_schema.go:478-515 | saving a relation again with its own endpoints never reports a cycle through itself |
| DelegationRelations.RelationService.AdminCreateRelation | engine/internal/app/admin_adapters.go:478-508 | the admin create: no schema lookup and no entry agent; a missing schema shows only at the insert |
| DelegationRelations.RelationService.UpdateSchemaEntry | engine/internal/app/http_adapters_schema.go:139-187 | a schema with relations accepts only a member of them as entry agent; clearing is always accepted |
| DelegationRelations.RelationService.AdminUpdateEntry | engine/internal/app/admin_adapters.go:150-180 | the admin update accepts any agent, and clearing |
| DelegationRelations.RelationService.DeleteAgentsNamed | engine/internal/app/agent_manager_http_adapter.go:488-529 | every schema loses an entry agent of that name, and exactly the relations that touch one go |
| DelegationRelations.RelationService.AdminDeleteAgent | engine/internal/app/admin_adapters.go:58-60 | refused while the agent is some schema's entry; otherwise exactly its relations go with it |
| DelegationRelations.RelationService.DeleteSchema | engine/internal/infrastructure/persistence/configrepo/schema_repository.go:213-235 | exactly the schema's relations and its entry go; a missing schema changes nothing |
| DelegationEntries.UnsetExactly | engine/internal/app/http_adapters_schema.go:457-467 | an accepted request leaves a related schema without entry agent iff it is an admin create in a schema that has none, clears the entry of a schema in use, deletes the entry agent of a schema that keeps a relation, or imports relations without an entry |
| DelegationEntries.EntriesStay | engine/internal/app/http_adapters_schema.go:457-467 | throughout a run of all these requests every related schema has an entry agent iff no accepted request of the run is one of those |
| DelegationEntries.EntryKept | engine/internal/app/agent_manager_http_adapter.go:508-512 | over every run an entry agent that is set stays unless the schema's entry is updated, the schema or that agent is deleted, or an import names the schema |
| DelegationRaces.WriteKeepsAcyclicIff | engine/internal/usecase/agentrelationcreate/usecase.go:55-73 | a write on a check of any age keeps the graphs acyclic iff no edge that landed in its schema since the check, and is still there, lies on a way from its target to its source |
| DelegationRaces.InterleavingsAcyclicIff | engine/internal/usecase/agentrelationcreate/usecase.go:55-73 | in every interleaving of checks, inserts, saves and deletes of any number of requests the graphs stay acyclic throughout iff no write of the run is of that kind |
| DelegationRaces.NothingLandedIsSafe | engine/internal/usecase/agentrelationcreate/usecase.go:55-73 | a write before which nothing landed in its schema since its check keeps the graphs acyclic |
| DelegationRaces.SerialCreate | engine/internal/usecase/agentrelationcreate/usecase.go:55-73 | check and insert with nothing in between are the create of the service, refusals included |
| DelegationRaces.SerialUpdate | engine/internal/app/http_adapters_schema.go:478-526 | so are an update and a delete, refusals included |
| DelegationRaces.TwoCreatesCloseACycle | engine/internal/usecase/agentrelationcreate/usecase.go:55-73 | from any sound store, two creates of opposite relations in a schema without relations that both check before either inserts close a cycle |
| SpawnStash.SharedBucket | engine/internal/app/lifecycle_adapter.go:155-157 | two tenant and session pairs share a bucket iff they are equal or one tenant id extends the other across a slash |
| SpawnStash.KeysInjectiveWithoutSlash | engine/internal/app/lifecycle_adapter.go:155-157 | bucket keys are injective on tenant ids without a slash |
| SpawnStash.SlashedTenantsShareABucket | engine/internal/app/lifecycle_adapter.go:155-157 | a concrete pair of tenants with a slash that share a bucket |
| SpawnStash.RunOnCell | engine/internal/app/lifecycle_adapter.go:132-203 | over every run the nested map acts as one independent cell per bucket key and agent id |
| SpawnStash.TakenOnceOrExpired | engine/internal/app/lifecycle_adapter.go:132-203 | a wait gets the stashed result iff no sweep in between came later than the time to live allows, and no later wait gets it again |
| SpawnStash.SessionsIsolated | engine/internal/app/lifecycle_adapter.go:155-194 | with slash-free tenant ids a run of other tenants' and sessions' steps adds nothing this session can find, and leaves what it could find iff none of its sweeps came later than the time to live allows |
| SpawnStash.NoEmptyBucketEver | engine/internal/app/lifecycle_adapter.go:161-194 | no run leaves an empty bucket in the map |
| SpawnStash.Spawner.SweepBucket | engine/internal/app/lifecycle_adapter.go:164-168 | removes exactly the entries older than the cutoff |
| SpawnStash.Spawner.SweepStale | engine/internal/app/lifecycle_adapter.go:161-173 | removes exactly the stale entries and the buckets that they leave empty |
| SpawnStash.Spawner.StashResult | engine/internal/app/lifecycle_adapter.go:132-150 | sweeps, then stores the result under its tenant and session; no empty bucket appears |
| SpawnStash.Spawner.TakeStashed | engine/internal/app/lifecycle_adapter.go:178-194 | removes and returns the result if it is there, and drops the bucket it empties |
| SpawnStash.Spawner.WaitForAgent | engine/internal/app/lifecycle_adapter.go:198-203 | a stashed result of the same tenant and session, or none, in which case the pool is asked |
| SpawnChain.WithSpawnAncestor | engine/internal/domain/spawn_ancestors.go:11-17 | the new chain is the old one with the name at its end, in memory of its own |
| SpawnChain.SpawnAgent | engine/internal/app/lifecycle_adapter.go:89-122 | nested spawns terminate, give the specified outcome and leave every chain handed to them unchanged |
| SpawnChain.SpawnAll | engine/internal/app/lifecycle_adapter.go:89-122 | sibling spawns run one after the other under the same unchanged chain |
| SpawnChain.DepthBounded | engine/internal/app/lifecycle_adapter.go:89-122 | whatever the agents ask for, executions nest no deeper than the number of known agents not in the chain |
| SpawnChain.NoAgentInsideItself | engine/internal/app/lifecycle_adapter.go:89-96 | on no path of nested executions does an agent occur twice |
| SpawnChain.RefusalNamesTheCycle | engine/internal/app/lifecycle_adapter.go:89-96 | every refusal, however deep, reports the executions it happened under followed by one of them |
| SpawnChain.FateOfRequests | engine/internal/app/lifecycle_adapter.go:76-122 | every request, however deep, comes to what its name says: only the three code agents without a lifecycle go to the pool, only known other agents run |
| UsageGate.GateReadsNoLess | engine/internal/usecase/usagelimit/usecase.go:124-135 | the gate, which compares whole seconds, never takes a window for over before the counting statement does |
| UsageGate.GateWindow | engine/internal/usecase/usagelimit/usecase.go:120-135 | a window that opened at least the interval and a second ago reads as zero, one inside the interval as its count, and in between it is one of the two |
| UsageGate.GateReadsLog | engine/internal/usecase/usagelimit/usecase.go:120-135 | over every run, for both scopes and units: inside the interval the gate reads exactly what was logged since the window opened, and zero from a second after it |
| UsageGate.RefusalHasCause | engine/internal/usecase/usagelimit/usecase.go:88-118 | in every reachable state a caller is refused only by an enabled limit that is zero or for which the log holds at least the limit in a window that opened less than the interval and a second ago |
| UsageGate.QuietWindowAdmits | engine/internal/usecase/usagelimit/usecase.go:88-135 | a scope for which nothing was counted for the interval and a second lets the next caller pass, whatever was counted before |
| UsageGate.UncontendedFlight | engine/internal/usecase/usagelimit/usecase.go:88-169 | the two check steps and the two counting steps of one flight alone are the gate and the settlement of the class |
| UsageGate.OvershootBounded | engine/internal/app/chat_http_adapter.go:315-398 | in every interleaving, what was counted since a window opened is at most limit - 1 + C turns, or limit - 1 + C*S steps, for C flights between check and count |
| UsageGate.OvershootReached | engine/internal/app/chat_http_adapter.go:321-331 | the bound is met: C turns that all check one short of the limit bring the counter to exactly limit - 1 + C |
| UsageGate.RunBounded | engine/internal/usecase/usagelimit/usecase.go:88-118 | every atomic step keeps count plus outstanding work within the bound, per counter |
| UsageGate.RunSummarises | engine/internal/infrastructure/persistence/configrepo/usage_counter_repository.go:61-85 | a counter always equals the sum of the logged increments since its window opened |
| UsageGate.FlightCountsOnce | engine/internal/usecase/usagelimit/usecase.go:141-169 | a settled flight adds its steps once to the tenant window and once to the user window, and one turn to each unless it is a resume |
| UsageGate.Enforcer.CheckAllowed | engine/internal/usecase/usagelimit/usecase.go:88-118 | refuses with the first scope, tenant before user, whose enabled limit is used up as GateWindow reads it, and allows iff there is none |
| UsageGate.Enforcer.Record | engine/internal/usecase/usagelimit/usecase.go:155-169 | counts for every configured scope, switched-off limits included, restarting a window that is over |
| StepAccounting.StepAccumulator.BeginSession | engine/internal/usecase/usagelimit/step_accumulator.go:36-43 | registers the session at zero; the empty id is ignored |
| StepAccounting.StepAccumulator.IncSession | engine/internal/usecase/usagelimit/step_accumulator.go:47-56 | counts a step for registered sessions only |
| StepAccounting.StepAccumulator.TakeSession | engine/internal/usecase/usagelimit/step_accumulator.go:61-67 | returns the count, zero if there is none, and forgets the session |
| StepAccounting.StepAccumulator.DiscardSession | engine/internal/usecase/usagelimit/step_accumulator.go:72-79 | forgets the session |
| StepAccounting.BillIsOwnSteps | engine/internal/app/chat_http_adapter.go:387-425 | what is billed is exactly the steps on the session since its last opening if it was not settled since, in every interleaving |
| StepAccounting.StepsConserved | engine/internal/app/chat_http_adapter.go:67-74 | over every history, per session: counted = billed + dropped + overwritten + pending |
| StepAccounting.WizardIsOneTurn | engine/internal/app/chat_http_adapter.go:387-425 | a turn that ends with output and any number of resumes after it are billed together as one turn, with all the steps of the turn and of the resumes |
| StepAccounting.NothingOverwritten | engine/internal/usecase/usagelimit/step_accumulator.go:36-43 | no counted step of a session is wiped out iff no agent step comes between two openings without a take or discard in between |
| StepAccounting.RegisteredExactly | engine/internal/usecase/usagelimit/step_accumulator.go:36-79 | a session is registered iff it was opened and neither taken nor discarded since |
| StepAccounting.LeftRegisteredExactly | engine/internal/app/chat_http_adapter.go:217-252 | after a turn or resume has ended its session is still registered iff its message could not be queued, and then holds exactly the steps made on it since the opening |
| StepAccounting.OverlapLosesAStep | engine/internal/app/chat_http_adapter.go:215-221 | two overlapping turns on one session: a counted step that is never billed |
| StepAccounting.FailedQueueKeepsCounting | engine/internal/app/chat_http_adapter.go:217-252 | a concrete history: a message that cannot be queued, then a turn on the user's own key whose step stays counted |
| StepAccounting.OwnKeyNeverCounts | engine/internal/app/chat_http_adapter.go:215-221 | a session whose turns all run on the user's own key is never registered, counted or billed |
| StepAccounting.FanOut | engine/internal/app/chat_http_adapter.go:277-294 | events are forwarded in order up to the first "done"; the turn is billable iff a billable event was forwarded |
| StepAccounting.SettleTurn | engine/internal/app/chat_http_adapter.go:387-398 | a billable turn is billed one turn with its steps, another drops them, a turn on the user's own key does neither |
| StepAccounting.SettleResumeSteps | engine/internal/app/chat_http_adapter.go:404-425 | a resume is billed its steps and no turn, and nothing if it made no step |
| InterruptResume.AtMostOneResumes | engine/internal/app/chat_http_adapter.go:475-572 | for any number of concurrent callers no interrupt is handed on twice; the winner is of its tenant and session, and the event recorded is the one it appended before; an interrupt carries an event iff it was won, as every resolved one does |
| InterruptResume.SettledForGood | engine/internal/infrastructure/persistence/configrepo/interrupt_repository.go:96-133 | once not pending, an interrupt keeps its event for good, and its status iff no abandoning update lands whose subquery had found it pending |
| InterruptResume.WinnerOverwritten | engine/internal/infrastructure/persistence/configrepo/interrupt_repository.go:96-133 | a winner between the subquery and the write of an abandoning update: the interrupt it resolved ends abandoned, with its event |
| InterruptResume.AbandonAlone | engine/internal/infrastructure/persistence/configrepo/interrupt_repository.go:113-133 | with nothing in between, subquery and write abandon exactly the pending interrupts of the session |
| InterruptResume.WinnerResumesIff | engine/internal/app/chat_http_adapter.go:542-568 | whatever other callers and the world do between its steps, a winner's answer reaches the queue iff its entry agent is set and registered when it is looked up and the session is open with room in its queue at the end |
| InterruptResume.AnsweredExactly | engine/internal/app/chat_http_adapter.go:475-572 | a caller's whole way, with any steps of others in between: it is answered iff its schema is there with chat on and an entry agent when it enters, the interrupt is its tenant's and session's and pending when it loads it and pending at its update, the agent is registered when it looks it up, and the session is open with room at the end |
| InterruptResume.NoEntryIsDoomed | engine/internal/app/chat_http_adapter.go:484-546 | a caller whose schema had no entry agent when it was loaded, before the update, is never answered in any run even if it wins |
| InterruptResume.StrandedRun | engine/internal/app/chat_http_adapter.go:475-546 | from nothing: one schema without entry agent, one interrupt, one caller; the interrupt ends resolved and nothing is queued |
| InterruptResume.StrandedForGood | engine/internal/app/chat_http_adapter.go:522-568 | at most once is not exactly once: after a winner failed behind the update no run ever hands its interrupt on |
| InterruptResume.InterruptStore.MarkResolved | engine/internal/infrastructure/persistence/configrepo/interrupt_repository.go:96-111 | succeeds iff the interrupt is the tenant's and pending, and then changes that row only |
| InterruptResume.InterruptStore.MarkAbandonedForSession | engine/internal/infrastructure/persistence/configrepo/interrupt_repository.go:113-133 | exactly the pending interrupts of the session are abandoned |
| InterruptResume.InterruptStore.ResumeInterrupt | engine/internal/app/chat_http_adapter.go:475-572 | one caller alone: the early refusals in the code's order change nothing; otherwise event and row change, and the answer is queued or the first failing guard of entry agent, registry and queue is reported |
| InterruptResume.ForeignLooksMissing | engine/internal/app/chat_http_adapter.go:475-490 | another tenant's interrupt is refused exactly like a missing one; of the tenant's own the session comes before the status |
| ByokCache.ServedIsRecent | engine/internal/app/byok_resolver.go:74-99 | in every interleaving each field served was in that tenant's own row (or was the fallback of a failed read) within the last TTL plus one load |
| ByokCache.PairHeldExactly | engine/internal/app/seed_byok.go:123-162 | the writes between the two reads guarantee a pair that the rows held, whatever values they write, iff all changes of the list come before all changes of the switch |
| ByokCache.ServedPairHeld | engine/internal/app/seed_byok.go:123-162 | in every interleaving a pair read around such writes was held by the tenant's rows, both fields together, within the last TTL plus one load |
| ByokCache.PairCanBeTorn | engine/internal/app/seed_byok.go:123-162 | a load around two writes serves a pair that the rows never held together |
| ByokCache.InvalidationTakesEffect | engine/internal/app/byok_resolver.go:101-113 | after an invalidation some run in which the tenant's rows stay as they are serves the tenant a value that differs from them iff some load of the tenant holds such a value at that moment |
| ByokCache.NewValueServed | engine/internal/app/byok_resolver.go:101-113 | in every run, if no load of the tenant read a row before the tenant's own last write, then after the invalidation every value read and served to the tenant is the one its rows hold, until it writes again; writes of other tenants do not matter |
| ByokCache.InvalidationByPosition | engine/internal/app/byok_resolver.go:101-113 | for any earlier number of writes: after an invalidation some run serves the tenant a value read before them iff some load of the tenant holds one |
| ByokCache.StraddlingLoadOutlivesInvalidation | engine/internal/app/byok_resolver.go:74-113 | a load that holds a value other than the tenant's rows puts it back after the invalidation, to be served for the whole TTL |
| ByokCache.StraddlerIsStale | engine/internal/app/byok_resolver.go:74-99 | a load that read the switch before it was changed is such a load |
| ByokCache.HeldIsLastOwn | engine/internal/app/seed_byok.go:123-162 | the rows of a tenant hold its own last write of each field, or the fallback if there was none |
| ByokCache.KeysDistinct | engine/internal/app/byok_resolver.go:56-69 | two named tenants have the same key iff they are equal; without a tenant there is no key, or the sentinel's |
| ByokCache.OwnConfigOnly | engine/internal/app/byok_resolver.go:74-99 | over every sequence of calls, what a named tenant gets was loaded from the rows of its own id, by this call or by an earlier one for it, less than the time to live ago and not invalidated since |
| ByokCache.OthersKept | engine/internal/app/byok_resolver.go:105-113 | a call for a tenant touches no other tenant's entry, and an invalidation leaves none for its own |
| ByokCache.ResolveIsSteps | engine/internal/app/byok_resolver.go:74-99 | one resolution alone is the steps resolve, read, read, store of the interleaved model: same cache, same answer |
| ByokCache.Resolver.ResolveKey | engine/internal/app/byok_resolver.go:59-69 | no key iff the request has no tenant and the sentinel is not allowed; otherwise the key that KeysDistinct and OwnConfigOnly speak of |
| ByokCache.Resolver.Lookup | engine/internal/app/byok_resolver.go:80-85 | a hit is an entry younger than the TTL |
| ByokCache.Resolver.ResolveTenant | engine/internal/app/byok_resolver.go:74-99 | without a key disabled and nothing cached; on a hit the entry; otherwise the load of that key, cached |
| ByokCache.Resolver.InvalidateTenant | engine/internal/app/byok_resolver.go:105-113 | drops the entry under the key that resolving uses, and nothing else |
| PrefixCache.HitIsLatestStore | engine/internal/app/prompt_prefix_provider.go:57-97 | over every run a lookup hits iff the tenant's last store is younger than the TTL and survived the resets, and gives the value of that store |
| PrefixCache.ServedIsRecent | engine/internal/app/prompt_prefix_provider.go:57-97 | in every interleaving of lookups, reads, stores, resets and policy writes each prefix served was in that tenant's own row, or was the empty one of a failed read, within the last TTL plus one load |
| PrefixCache.HeldIsLastOwn | engine/internal/app/prompt_prefix_provider.go:57-82 | the policy row of a tenant holds what the tenant itself wrote last, and nothing if it wrote nothing |
| PrefixCache.WrittenIsServed | engine/internal/app/prompt_prefix_provider.go:57-97 | a policy written and then asked for with no entry in the way is served, and hits for exactly the time to live |
| PrefixCache.LookupServes | engine/internal/app/prompt_prefix_provider.go:57-97 | a miss with nothing in between serves and stores the row of its tenant, or the empty prefix if the read fails |
| PrefixCache.CacheIsRemembered | engine/internal/app/prompt_prefix_provider.go:84-97 | the cache is exactly the last stores, per tenant, since the last one that found it full |
| PrefixCache.NeverOverfull | engine/internal/app/prompt_prefix_provider.go:84-97 | never more than the maximum number of entries |
| PrefixCache.RefreshCanReset | engine/internal/app/prompt_prefix_provider.go:84-97 | a store keeps all other entries iff the cache is not full; a full one is dropped even to refresh a tenant that it holds |
| PrefixCache.Provider.StoreValue | engine/internal/app/prompt_prefix_provider.go:84-97 | resets a full cache, then stores with the TTL |
| PrefixCache.Provider.PromptPrefix | engine/internal/app/prompt_prefix_provider.go:57-82 | a hit, or what that tenant's row holds, with a failed read and a missing row cached as the empty prefix |
| Text.SplitJoin | engine/widget/src/chat.ts:282-283 | a text is its complete lines, each with its newline, followed by the rest, and no line holds a newline |
| Text.SplitAppend | engine/widget/src/chat.ts:281-283 | when more text arrives the complete lines stay and only the rest is split again |
| SseReader.Reader.Feed | engine/widget/src/chat.ts:281-304 | after any chunk the buffer is the unterminated last line of all text so far and the calls are those of one pass over its complete lines |
| SseReader.Reader.ReadAll | engine/widget/src/chat.ts:270-310 | however the text is cut, the calls are those of one pass over the whole text |
| SseReader.WriteThenRead | engine/internal/delivery/http/chat_handler.go:209-216 | reading what the engine sends, comment line first, reports the written events exactly iff no event name has outer whitespace |
| StandardSse.BlockExactly | engine/widget/src/chat.ts:285-303 | on the lines of one event the reader makes the calls of the standard iff there is at most one data line, it has the space, and the event type read before it is that of the whole event |
| StandardSse.FieldsAre | engine/widget/src/chat.ts:285-303 | by the standard a line is a name, a colon and a value, with a space between or not; without a colon the value is empty |
| StandardSse.AgreesExactly | engine/widget/src/chat.ts:285-303 | on every text the reader has reported what the standard dispatches, at every event boundary, iff all events of the text are of that kind |
| StandardSse.NoSpaceIsLost | engine/widget/src/chat.ts:285-303 | a data field without the space is dispatched by the standard and passed over by the reader |
| StandardSse.EngineStream | engine/internal/delivery/http/chat_handler.go:209-216 | by the standard the engine's stream dispatches exactly the written events, and the reader agrees on it iff no event name has outer whitespace |
| Markdown.EscapeIsOnePass | engine/widget/src/markdown.ts:39-45 | the four whole-text rewrites equal one pass over the characters |
| Markdown.EscapeRoundTrip | engine/widget/src/markdown.ts:39-45 | escaping can be undone |
| Markdown.EscapeInjective | engine/widget/src/markdown.ts:39-45 | different texts escape differently |
| Markdown.NoRawMarkup | engine/widget/src/markdown.ts:39-45 | no angle bracket or double quote is left |
| Markdown.BlocksNest | engine/widget/src/markdown.ts:58-104 | for every input list tags alternate and are closed, every list has an item, items stand inside lists and all else outside |
| Markdown.BlocksKeepPieces | engine/widget/src/markdown.ts:58-104 | without its list tags the output is the lines in order, blank ones dropped |
| Markdown.MachineRenders | engine/widget/src/markdown.ts:63-102 | the line machine makes one list of every maximal run of item lines |
| Markdown.AddPiece | engine/widget/src/markdown.ts:63-97 | one turn of the loop: which tags it emits and whether a list is open afterwards |
| Markdown.RenderLines | engine/widget/src/markdown.ts:58-102 | the loop is the machine run over all lines, with the last list closed |
| Markdown.ProcessLines | engine/widget/src/markdown.ts:58-108 | the result is the rendered runs joined by newlines, without a trailing break |
| MarkdownLines.ItemLines | engine/widget/src/markdown.ts:64-84 | a line is the item of a text iff it is that text, trimmed, behind an optional indent, a dash or star and white space, and does not end preformatted text |
| MarkdownLines.PreLines | engine/widget/src/markdown.ts:64-74 | a line is kept as it is iff, trimmed, it begins with `<pre>` or ends with `</pre>` |
| MarkdownLines.BlankLines | engine/widget/src/markdown.ts:92-95 | a line leaves nothing behind iff it is white space |
| MarkdownLines.RunBecomesList | engine/widget/src/markdown.ts:76-103 | item lines up to the next other line become `<ul>`, one `<li>` with its text for each, and `</ul>` |
| MarkdownLines.LineBecomes | engine/widget/src/markdown.ts:66-99 | any other line stands for itself, a paragraph with `<br>` behind it |
| MarkdownLines.JoinedLines | engine/widget/src/markdown.ts:106 | the rendered lines are exactly the lines of the result |
| MarkdownLines.TrailingBreak | engine/widget/src/markdown.ts:107 | a break at the end goes, with the white space behind it |
| MarkdownLines.NoTrailingBreak | engine/widget/src/markdown.ts:107 | a result without a break at its end is left alone |
| EngineTask.Accepted | engine/internal/domain/engine_task.go:81-161 | which operation is accepted in which status, exactly |
| EngineTask.LifeIsConsistent | engine/internal/domain/engine_task.go:107-128 | over every run from a new task on a clock that does not go back: completion time iff terminal, started before done, drafts approved before running, and the timestamps in order |
| EngineTask.TerminalForGood | engine/internal/domain/engine_task.go:81-90 | in a terminal state only priority and update time ever change |
| EngineTask.StartedForGood | engine/internal/domain/engine_task.go:117-121 | the start time never changes once set |
| EngineTask.OutcomeIsLastOp | engine/internal/domain/engine_task.go:141-156 | result, error and completion time are those of the operation that ended the task; nothing else writes them |
| EngineTask.PriorityInRange | engine/internal/domain/engine_task.go:164-171 | over every run the priority stays one of the three |
| EngineTask.PriorityIsLastSet | engine/internal/domain/engine_task.go:164-171 | over every run the priority is the last valid one asked for, whatever the status was, or the first one |
| EngineTask.UpdatedByLast | engine/internal/domain/engine_task.go:107-171 | over every run the update time is that of the last accepted operation |
| EngineTask.TaskRecord.CanTransitionTo | engine/internal/domain/engine_task.go:93-104 | true iff the target is listed for the status |
| EngineTask.TaskRecord.Transition | engine/internal/domain/engine_task.go:107-128 | an invalid transition changes nothing; a valid one sets the status and its timestamps |
| EngineTask.TaskRecord.Perform | engine/internal/domain/engine_task.go:131-171 | all operations, with result, reason and priority; refused ones change nothing |
| Egress.PlainBlocked | engine/pkg/plugin/egress_policy.go:97-120 | an IPv4 address is blocked iff it lies in one of eight address blocks |
| Egress.CGNATIsMask | engine/pkg/plugin/egress_policy.go:154-160 | the byte test equals the mask test for 100.64.0.0/10 |
| Egress.SameVerdictInEveryForm | engine/pkg/plugin/egress_policy.go:97-140 | the verdict is the same plain, IPv4-mapped and through NAT64 |
| Egress.CompatibleVerdict | engine/pkg/plugin/egress_policy.go:134-138 | in IPv4-compatible form the verdict is the same iff the address is not 0.0.0.1 |
| Egress.CarriesExactly | engine/pkg/plugin/egress_policy.go:98-138 | an address of 16 bytes carries an IPv4 address iff it begins with one of three prefixes of 96 bits, the zero one not with 0.0 behind it |
| Egress.Verdict6 | engine/pkg/plugin/egress_policy.go:97-140 | every 16-byte address: an IPv4 address that it carries decides, otherwise exactly five IPv6 blocks are blocked |
| Egress.UnwrapsOnce | engine/pkg/plugin/egress_policy.go:101-110 | an embedded address embeds nothing itself: the recursion is one deep |
| KgTools.ToolNames | engine/internal/domain/kg_entity_schema.go:133-145 | the names are distinct and are exactly those of the exposed kinds |
| KgTools.SharedName | engine/internal/domain/kg_entity_schema.go:133-145 | two types share a name iff one is the other with "_ids" after it, the longer exposes its list and the shorter its identifiers |
| KgTools.DefaultsNeverShare | engine/internal/domain/kg_entity_schema.go:72-74 | with defaulted kinds two types never share a name |
| KgTools.ClashingTypesAreValid | engine/internal/domain/kg_entity_schema.go:149-154 | a type with "_ids" after it is still valid iff the type has at most 60 characters |
| KgTools.ValidIsPattern | engine/internal/domain/kg_entity_schema.go:12-20 | a valid type is a letter, at most 62 letters, digits and underscores, and a letter or digit |

## Left out

- The knowledge-graph section of export and import: it runs outside the transaction, and the export reads at most 500 entities per type.
- Document text: documents start as decoded values, with the two list formats of FlexList; JSON and YAML syntax, environment expansion and unknown keys are not modelled.
- Columns and rows: timestamps and the ids of child rows are not modelled, new ids come from a counter instead of random UUIDs, a JSON column holds the shape the code writes or nothing, and the database's own length and format checks do not occur.
- Database errors other than a missing or repeated row; every SQL statement is one atomic step, and the import's transaction sees no concurrent writer.
- The quota guard is a function of the number asked for; the api key and can_spawn fields of a document are ignored by the import, as in the code, and so are not part of it.
- UsageGate: limits stay the same during a run, the active-user gate is not modelled, and the application and the database read one clock.
- UsageGate.Enforcer.Record: an error between the two scopes is a flight that leaves early in the concurrent model, not a failure of this method.
- SpawnChain: what agents in the code-agent pool spawn, and the text of the results; each execution's requests are an arbitrary function of its place in the tree.
- SpawnStash: the pool that is asked when nothing is stashed, and how UUIDs are drawn; the ids are arbitrary.
- DelegationRelations: translation of agent names to ids, so that no request names an agent that is missing; the protection of system agents and of schemas with sessions from deletion; other fields of a schema update; forking of schema templates; failures of the repository.
- DelegationRaces: reading the edges for a check is one statement; imports and the entry agent are not part of the interleaved model.
- InterruptResume: the content of resume messages, the best-effort history row, the usage gate in front (it is in UsageGate), the step count (it is in StepAccounting) and the event stream behind; the world of schemas, registries and sessions changes arbitrarily.
- ByokCache: decoding of the stored values; the counts of writes kept with a reading only observe the run.
- PrefixCache: parsing of the policy row; the moments of writes kept with a value only observe the run.
- Markdown: the rewriting of bold, code and links by regular expressions and the check of link targets; characters are Unicode scalar values, not UTF-16 units.
- StandardSse: line ends other than a newline, a leading byte order mark, the id and retry fields, and reconnection; an event without a type keeps the empty name that the reader reports.
- SseReader: UTF-8 decoding, aborting, and what the callbacks do with an event.
- Egress: parsing of addresses and URLs, and hostnames.
- EngineTask: blockers, subtasks and validation of titles.
- KgTools: the collision detector that uses the names.
- Server bootstrap, seeding, routing, the admin interface, session and audit adapters, memory and knowledge bases, status-flag entities, hashing and tokens: wiring, or they would only add easy members.
