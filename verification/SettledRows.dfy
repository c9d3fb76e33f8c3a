// When one exported item, imported again over the row it came from, changes nothing.
module SettledRows {
  import opened Prelude
  import opened ConfigModel
  import opened ConfigImport
  import opened ChildTables
  import opened Writes
  import opened ConfigLaws
  import opened ConfigExport

  // ---- listings ----

  lemma {:induction false} ListSize<K(!new)>(keys: seq<K>, all: set<K>)
    requires Lists(keys, all)
    ensures |keys| == |all|
    decreases |keys|
  {
    if keys == [] {
      assert forall k :: k in all ==> k in keys;
      assert all == {};
    } else {
      var k, rest := keys[0], keys[1..];
      forall x ensures x in rest <==> x in all - {k} {
        if x in rest { var i :| 0 <= i < |rest| && rest[i] == x; assert keys[i + 1] == x; }
      }
      ListSize(rest, all - {k});
    }
  }

  lemma {:induction false} StrictlyIncreasing(s: seq<nat>, i: nat)
    requires i < |s|
    requires forall j, k :: 0 <= j < k < |s| ==> s[j] < s[k]
    ensures i <= s[i] && s[i] + (|s| - 1 - i) <= s[|s| - 1]
    decreases |s|
  {
    if 0 < i {
      var init := s[..i];
      StrictlyIncreasing(init, i - 1);
      assert s[i - 1] < s[i];
    }
    if i < |s| - 1 {
      var tail := s[..|s| - 1];
      StrictlyIncreasing(tail, i);
      assert tail[|tail| - 1] == s[|s| - 2] < s[|s| - 1];
    }
  }

  lemma SwapGroup<K, V>(m: ChildTable<K, V>, o: nat)
    ensures Swap(m, o, Group(m, o)) == m
  {
  }

  // If the items resolve to the listed keys, re-inserting them keeps the table exactly when
  // they also resolve to the stored data.
  lemma ListedRows<I, K(!new), V>(m: ChildTable<K, V>, owner: nat, t: string, keys: seq<K>, items: seq<I>,
                                  resolve: (I, nat) -> Option<(K, V)>)
    requires SameTenant(m, owner, t) && Lists(keys, OwnedKeys(m, owner)) && |items| == |keys|
    requires forall i :: 0 <= i < |keys| ==> Child(owner, keys[i]) in m
    requires forall i :: 0 <= i < |items| ==> resolve(items[i], i).Some? && resolve(items[i], i).value.0 == keys[i]
    ensures Insertable(items, resolve)
    ensures Swap(m, owner, Rows(owner, t, items, resolve)) == m
       <==> forall i :: 0 <= i < |keys| ==> m[Child(owner, keys[i])].data == resolve(items[i], i).value.1
  {
    var r := Rows(owner, t, items, resolve);
    RowsAt(owner, t, items, resolve);
    GroupOfSwap(m, owner, r, owner);
    SwapGroup(m, owner);
    if forall i :: 0 <= i < |keys| ==> m[Child(owner, keys[i])].data == resolve(items[i], i).value.1 {
      ListedSame(m, owner, t, keys, items, resolve);
    }
    if Swap(m, owner, r) == m {
      forall i | 0 <= i < |keys| ensures m[Child(owner, keys[i])].data == resolve(items[i], i).value.1 {
        var (k, v) := resolve(items[i], i).value;
        assert Child(owner, k) in r && r[Child(owner, k)] == Owned(t, v);
        assert Group(m, owner)[Child(owner, k)] == m[Child(owner, k)];
      }
    }
  }

  lemma ListedSame<I, K(!new), V>(m: ChildTable<K, V>, owner: nat, t: string, keys: seq<K>, items: seq<I>,
                                  resolve: (I, nat) -> Option<(K, V)>)
    requires SameTenant(m, owner, t) && Lists(keys, OwnedKeys(m, owner)) && |items| == |keys|
    requires forall i :: 0 <= i < |keys| ==> Child(owner, keys[i]) in m
    requires forall i :: 0 <= i < |items| ==> resolve(items[i], i).Some? && resolve(items[i], i).value.0 == keys[i]
    requires forall i :: 0 <= i < |keys| ==> m[Child(owner, keys[i])].data == resolve(items[i], i).value.1
    requires Insertable(items, resolve)
    ensures Rows(owner, t, items, resolve) == Group(m, owner)
  {
    var r := Rows(owner, t, items, resolve);
    RowsAt(owner, t, items, resolve);
    forall c: Child<K> ensures (c in r <==> c in Group(m, owner)) && (c in r ==> r[c] == Group(m, owner)[c]) {
      if c in Group(m, owner) {
        assert c.key in OwnedKeys(m, owner);
        var j :| 0 <= j < |keys| && keys[j] == c.key;
        assert c == Child(owner, resolve(items[j], j).value.0);
      }
      if c in r {
        var j :| 0 <= j < |items| && c == Child(owner, resolve(items[j], j).value.0);
        assert c == Child(owner, keys[j]);
      }
    }
  }

  // ---- models and servers are always written back as they are ----

  lemma ModelSettled(db: Tables, t: string, m: ModelItem)
    requires Key(t, m.name) in db.models && ModelItemOf(db, Key(t, m.name), m)
    ensures Apply(db, t, UpsertModel(m)) == Ok(db)
  {
    var k := Key(t, m.name);
    assert OverModel(db.models[k], m) == db.models[k];
    assert db.models[k := db.models[k]] == db.models;
  }

  lemma ServerSettled(db: Tables, t: string, s: ServerItem)
    requires Key(t, s.name) in db.servers && ServerItemOf(db, Key(t, s.name), s)
    ensures Apply(db, t, UpsertServer(s)) == Ok(db)
  {
    var k := Key(t, s.name);
    var row := db.servers[k];
    MaskedIsDropped(if row.envVars.Some? then row.envVars.value else map[]);
    assert OverServer(row, s) == row;
    assert db.servers[k := row] == db.servers;
  }

  // ---- agents ----

  // A reference exported as `name` resolves back to the same id exactly if it stays inside the tenant
  // and the name is not "".
  lemma ModelNameResolves(db: Tables, t: string, k: Key, a: AgentItem)
    requires WellFormed(db) && k in db.agents && k.tenant == t && AgentItemOf(db, t, k, a)
    ensures ModelInside(db, t, k) && a.modelName != "" ==> Key(t, a.modelName) in db.models
    ensures db.agents[k].modelId == ModelRef(db, t, a.modelName)
       <==> ModelInside(db, t, k) && (db.agents[k].modelId.Some? ==> !NamesModel(db, db.agents[k].modelId.value, ""))
  {
    var row := db.agents[k];
    if row.modelId.Some? && HasModel(db, t, row.modelId.value) {
      InsideModelResolves(db, t, row.modelId.value, a.modelName);
    }
  }

  lemma InsideModelResolves(db: Tables, t: string, id: nat, name: string)
    requires WellFormed(db) && HasModel(db, t, id) && NamesModel(db, id, name)
    ensures Key(t, name) in db.models && db.models[Key(t, name)].id == id
    ensures NamesModel(db, id, "") <==> name == ""
  {
    IdsOfTables(db);
    var mk :| mk in db.models && mk.tenant == t && db.models[mk].id == id;
    var nk :| nk in db.models && nk.name == name && db.models[nk].id == id;
    assert mk == nk && mk == Key(t, name);
    if NamesModel(db, id, "") {
      var ek :| ek in db.models && ek.name == "" && db.models[ek].id == id;
      assert ek == mk;
    }
  }

  lemma AgentSettled(db: Tables, t: string, k: Key, a: AgentItem)
    requires WellFormed(db) && k in db.agents && k.tenant == t && AgentItemOf(db, t, k, a)
    ensures Apply(db, t, UpsertAgent(a)) == Ok(db) <==>
              var row := db.agents[k];
              && Defaults(row.settings) == row.settings && ValidBudgets(row.settings)
              && row.stopSequences != Some([]) && row.confirmBefore != Some([])
              && ModelInside(db, t, k) && (row.modelId.Some? ==> !NamesModel(db, row.modelId.value, ""))
  {
    ModelNameResolves(db, t, k, a);
    var row := db.agents[k];
    var row' := OverAgent(row, a, ModelRef(db, t, a.modelName));
    assert k == Key(t, a.name);
    assert row' == row ==> db.agents[k := row'] == db.agents;
    assert db.agents[k := row'][k] == row';
    assert Defaults(Defaults(row.settings)) == Defaults(row.settings);
  }

  lemma ToolOrders(m: ChildTable<ToolKey, ToolData>, owner: nat, keys: seq<ToolKey>, names: seq<string>)
    requires ToolKeysListed(m, owner, keys, names) && PlainTools(m, owner)
    ensures forall i :: 0 <= i < |keys| ==>
          m[Child(owner, keys[i])].data == ToolData(None, i) && keys[i] == ToolKey(BUILTIN, names[i])
  {
    ListSize(keys, OwnedKeys(m, owner));
    var orders := seq(|keys|, i requires 0 <= i < |keys| => m[Child(owner, keys[i])].data.sortOrder);
    forall i, j | 0 <= i < j < |orders| ensures orders[i] < orders[j] {
      assert Child(owner, keys[i]) != Child(owner, keys[j]);
    }
    forall i | 0 <= i < |keys|
      ensures m[Child(owner, keys[i])].data == ToolData(None, i) && keys[i] == ToolKey(BUILTIN, names[i])
    {
      StrictlyIncreasing(orders, i);
      assert orders[|keys| - 1] < |keys|;
    }
  }

  lemma PlainRows(m: ChildTable<ToolKey, ToolData>, owner: nat, t: string, names: seq<string>)
    requires Insertable(names, ToolRows()) && Group(m, owner) == Rows(owner, t, names, ToolRows())
    requires |names| == |OwnedKeys(m, owner)|
    ensures PlainTools(m, owner)
  {
    RowsAt(owner, t, names, ToolRows());
    forall c | c in m && c.owner == owner
      ensures exists j :: (0 <= j < |names| && c == Child(owner, ToolKey(BUILTIN, names[j]))
                           && m[c].data == ToolData(None, j))
    {
      assert c in Group(m, owner) && m[c] == Group(m, owner)[c];
      var j :| 0 <= j < |names| && c == Child(owner, ToolRows()(names[j], j).value.0);
      assert ToolRows()(names[j], j).value == (ToolKey(BUILTIN, names[j]), ToolData(None, j));
    }
  }

  lemma PlainToolsSettle(db: Tables, t: string, k: Key, a: AgentItem, keys: seq<ToolKey>)
    requires WellFormed(db) && k in db.agents && k == Key(t, a.name) && PlainTools(db.tools, db.agents[k].id)
    requires ToolKeysListed(db.tools, db.agents[k].id, keys, a.tools)
    ensures Apply(db, t, SyncTools(a)) == Ok(db)
  {
    var id := db.agents[k].id;
    StepClosed(db, t, SyncTools(a));
    ToolOrders(db.tools, id, keys, a.tools);
    ListedRows(db.tools, id, t, keys, a.tools, ToolRows());
  }

  lemma SettledToolsPlain(db: Tables, t: string, k: Key, a: AgentItem, keys: seq<ToolKey>)
    requires WellFormed(db) && k in db.agents && k == Key(t, a.name) && Apply(db, t, SyncTools(a)) == Ok(db)
    requires ToolKeysListed(db.tools, db.agents[k].id, keys, a.tools)
    ensures PlainTools(db.tools, db.agents[k].id)
  {
    var id := db.agents[k].id;
    StepClosed(db, t, SyncTools(a));
    ListSize(keys, OwnedKeys(db.tools, id));
    GroupOfSwap(db.tools, id, Rows(id, t, a.tools, ToolRows()), id);
    PlainRows(db.tools, id, t, a.tools);
  }

  lemma ToolsSettled(db: Tables, t: string, k: Key, a: AgentItem)
    requires WellFormed(db) && k in db.agents && k == Key(t, a.name) && ToolsListed(db.tools, db.agents[k].id, a.tools)
    ensures Apply(db, t, SyncTools(a)) == Ok(db) <==> PlainTools(db.tools, db.agents[k].id)
  {
    var keys :| ToolKeysListed(db.tools, db.agents[k].id, keys, a.tools);
    if PlainTools(db.tools, db.agents[k].id) { PlainToolsSettle(db, t, k, a, keys); }
    if Apply(db, t, SyncTools(a)) == Ok(db) { SettledToolsPlain(db, t, k, a, keys); }
  }

  lemma TenantKeysAll<K, V>(m: ChildTable<K, V>, owner: nat, t: string)
    requires SameTenant(m, owner, t)
    ensures TenantKeys(m, owner, t) == OwnedKeys(m, owner)
  {
  }

  lemma ServerNameResolves(db: Tables, t: string, id: nat, name: string)
    requires WellFormed(db) && HasServer(db, t, id) && NamesServer(db, id, name)
    ensures Key(t, name) in db.servers && db.servers[Key(t, name)].id == id
  {
    IdsOfTables(db);
    var mk :| mk in db.servers && mk.tenant == t && db.servers[mk].id == id;
    var nk :| nk in db.servers && nk.name == name && db.servers[nk].id == id;
    assert mk == nk && mk == Key(t, name);
  }

  lemma LinksResolve(db: Tables, t: string, id: nat, ids: seq<nat>, names: seq<string>)
    requires WellFormed(db) && LinkedInside(db, t, id) && LinkIdsListed(db, t, id, ids, names)
    ensures forall i :: 0 <= i < |ids| ==> Child(id, ids[i]) in db.links && db.links[Child(id, ids[i])].data == Link
    ensures forall i :: 0 <= i < |ids| ==> LinkRows(db.servers, t)(names[i], i) == Some((ids[i], Link))
  {
    forall i | 0 <= i < |ids|
      ensures Child(id, ids[i]) in db.links && db.links[Child(id, ids[i])].data == Link
      ensures LinkRows(db.servers, t)(names[i], i) == Some((ids[i], Link))
    {
      assert ids[i] in TenantKeys(db.links, id, t);
      ServerNameResolves(db, t, ids[i], names[i]);
      assert db.links[Child(id, ids[i])].data.Link?;
    }
  }

  lemma LinksFixed(db: Tables, t: string, a: AgentItem)
    requires WellFormed(db) && Key(t, a.name) in db.agents
    ensures var id := db.agents[Key(t, a.name)].id;
            Apply(db, t, SyncLinks(a)) == Ok(db) <==>
              Insertable(a.mcpServers, LinkRows(db.servers, t))
              && Swap(db.links, id, Rows(id, t, a.mcpServers, LinkRows(db.servers, t))) == db.links
  {
    StepClosed(db, t, SyncLinks(a));
  }

  lemma InsideLinksSettle(db: Tables, t: string, k: Key, a: AgentItem)
    requires WellFormed(db) && k in db.agents && k == Key(t, a.name) && LinkedInside(db, t, db.agents[k].id)
    requires LinksListed(db, t, db.agents[k].id, a.mcpServers)
    ensures Apply(db, t, SyncLinks(a)) == Ok(db)
  {
    var id := db.agents[k].id;
    var ids :| LinkIdsListed(db, t, id, ids, a.mcpServers);
    LinksFixed(db, t, a);
    TenantKeysAll(db.links, id, t);
    LinksResolve(db, t, id, ids, a.mcpServers);
    ListedRows(db.links, id, t, ids, a.mcpServers, LinkRows(db.servers, t));
  }

  // Whatever the import links is one of the tenant's servers.
  lemma LinkRowsInside(db: Tables, t: string, owner: nat, names: seq<string>, c: Child<nat>)
    requires Insertable(names, LinkRows(db.servers, t)) && c in Rows(owner, t, names, LinkRows(db.servers, t))
    ensures HasServer(db, t, c.key)
  {
    var r := LinkRows(db.servers, t);
    RowsAt(owner, t, names, r);
    var j :| 0 <= j < |names| && c == Child(owner, r(names[j], j).value.0);
    assert r(names[j], j).Some?;
    assert Key(t, names[j]) in db.servers;
  }

  lemma LinksSettled(db: Tables, t: string, k: Key, a: AgentItem)
    requires WellFormed(db) && k in db.agents && k == Key(t, a.name)
    requires LinksListed(db, t, db.agents[k].id, a.mcpServers)
    ensures Apply(db, t, SyncLinks(a)) == Ok(db) <==> LinkedInside(db, t, db.agents[k].id)
  {
    var id, r := db.agents[k].id, LinkRows(db.servers, t);
    if LinkedInside(db, t, id) { InsideLinksSettle(db, t, k, a); }
    if Apply(db, t, SyncLinks(a)) == Ok(db) {
      LinksFixed(db, t, a);
      GroupOfSwap(db.links, id, Rows(id, t, a.mcpServers, r), id);
      forall c | c in db.links && c.owner == id ensures HasServer(db, t, c.key) {
        assert c in Group(db.links, id);
        LinkRowsInside(db, t, id, a.mcpServers, c);
      }
    }
  }

  // ---- schemas ----

  lemma AgentNameResolves(db: Tables, t: string, id: nat, name: string)
    requires WellFormed(db) && HasAgent(db, t, id) && NamesAgent(db, id, name)
    ensures Key(t, name) in db.agents && db.agents[Key(t, name)].id == id
  {
    IdsOfTables(db);
    var mk :| mk in db.agents && mk.tenant == t && db.agents[mk].id == id;
    var nk :| nk in db.agents && nk.name == name && db.agents[nk].id == id;
    assert mk == nk && mk == Key(t, name);
  }

  lemma EntryResolves(db: Tables, t: string, entry: Option<nat>, name: string)
    requires WellFormed(db) && EntryNameOf(db, t, entry, name)
    ensures name != "" ==> Key(t, name) in db.agents
    ensures AgentRef(db, t, name) == entry
       <==> (entry.Some? ==> HasAgent(db, t, entry.value) && !NamesAgent(db, entry.value, ""))
  {
    if entry.Some? && HasAgent(db, t, entry.value) {
      IdsOfTables(db);
      if NamesAgent(db, entry.value, "") { AgentNameResolves(db, t, entry.value, ""); }
    }
  }

  lemma SchemaSettled(db: Tables, t: string, k: Key, s: SchemaItem)
    requires WellFormed(db) && k in db.schemas && k.tenant == t && !db.schemas[k].isSystem
    requires SchemaItemOf(db, t, k, s)
    ensures Apply(db, t, UpsertSchema(s)) == Ok(db) <==> k.name != "" && EntryInside(db, t, k) && EntryNamed(db, k)
  {
    var row := db.schemas[k];
    EntryResolves(db, t, row.entryAgentId, s.entryAgent);
    var row' := OverSchema(row, s, AgentRef(db, t, s.entryAgent));
    assert k == Key(t, s.name);
    assert row' == row ==> db.schemas[k := row'] == db.schemas;
    assert db.schemas[k := row'][k] == row';
  }

  lemma ArrowsResolve(db: Tables, t: string, id: nat, arrows: seq<Arrow>, items: seq<RelationItem>)
    requires WellFormed(db) && RelatedInside(db, t, id) && ArrowsListed(db, t, id, arrows, items)
    ensures forall i :: 0 <= i < |arrows| ==> Child(id, arrows[i]) in db.relations
    ensures forall i :: 0 <= i < |arrows| ==> RelationRows(db.agents, t)(items[i], i) == Some((arrows[i], EMPTY_JSON))
  {
    forall i | 0 <= i < |arrows|
      ensures Child(id, arrows[i]) in db.relations
            && RelationRows(db.agents, t)(items[i], i) == Some((arrows[i], EMPTY_JSON))
    {
      assert arrows[i] in TenantKeys(db.relations, id, t);
      assert Child(id, arrows[i]) in db.relations;
      AgentNameResolves(db, t, arrows[i].source, items[i].source);
      AgentNameResolves(db, t, arrows[i].target, items[i].target);
    }
  }

  lemma RelationsFixed(db: Tables, t: string, s: SchemaItem)
    requires WellFormed(db) && Key(t, s.name) in db.schemas
    ensures var id := db.schemas[Key(t, s.name)].id;
            Apply(db, t, ReplaceRelations(s)) == Ok(db) <==>
              Insertable(s.relations, RelationRows(db.agents, t))
              && Swap(db.relations, id, Rows(id, t, s.relations, RelationRows(db.agents, t))) == db.relations
  {
    StepClosed(db, t, ReplaceRelations(s));
  }

  lemma AllListed<K(!new), V>(m: ChildTable<K, V>, owner: nat, keys: seq<K>)
    requires Lists(keys, OwnedKeys(m, owner))
    ensures forall c :: c in m && c.owner == owner ==> exists i :: 0 <= i < |keys| && c == Child(owner, keys[i])
  {
    forall c | c in m && c.owner == owner ensures exists i :: 0 <= i < |keys| && c == Child(owner, keys[i]) {
      assert c.key in OwnedKeys(m, owner);
      var i :| 0 <= i < |keys| && keys[i] == c.key;
      assert c == Child(owner, keys[i]);
    }
  }

  lemma InsideRelationsSettle(db: Tables, t: string, k: Key, s: SchemaItem)
    requires WellFormed(db) && k in db.schemas && k == Key(t, s.name) && RelatedInside(db, t, db.schemas[k].id)
    requires RelationsListed(db, t, db.schemas[k].id, s.relations)
    ensures Apply(db, t, ReplaceRelations(s)) == Ok(db) <==> PlainRelations(db.relations, db.schemas[k].id)
  {
    var id := db.schemas[k].id;
    var arrows: seq<Arrow> :| ArrowsListed(db, t, id, arrows, s.relations);
    RelationsFixed(db, t, s);
    TenantKeysAll(db.relations, id, t);
    ArrowsResolve(db, t, id, arrows, s.relations);
    ListedRows(db.relations, id, t, arrows, s.relations, RelationRows(db.agents, t));
    AllListed(db.relations, id, arrows);
  }

  // Whatever the import relates are the tenant's agents.
  lemma RelationRowsInside(db: Tables, t: string, owner: nat, items: seq<RelationItem>, c: Child<Arrow>)
    requires Insertable(items, RelationRows(db.agents, t)) && c in Rows(owner, t, items, RelationRows(db.agents, t))
    ensures HasAgent(db, t, c.key.source) && HasAgent(db, t, c.key.target)
  {
    var r := RelationRows(db.agents, t);
    RowsAt(owner, t, items, r);
    var j :| 0 <= j < |items| && c == Child(owner, r(items[j], j).value.0);
    assert r(items[j], j).Some?;
    assert Key(t, items[j].source) in db.agents && Key(t, items[j].target) in db.agents;
  }

  lemma RelationsSettled(db: Tables, t: string, k: Key, s: SchemaItem)
    requires WellFormed(db) && k in db.schemas && k == Key(t, s.name)
    requires RelationsListed(db, t, db.schemas[k].id, s.relations)
    ensures Apply(db, t, ReplaceRelations(s)) == Ok(db)
       <==> RelatedInside(db, t, db.schemas[k].id) && PlainRelations(db.relations, db.schemas[k].id)
  {
    var id, r := db.schemas[k].id, RelationRows(db.agents, t);
    if RelatedInside(db, t, id) { InsideRelationsSettle(db, t, k, s); }
    if Apply(db, t, ReplaceRelations(s)) == Ok(db) {
      RelationsFixed(db, t, s);
      GroupOfSwap(db.relations, id, Rows(id, t, s.relations, r), id);
      forall c | c in db.relations && c.owner == id
        ensures HasAgent(db, t, c.key.source) && HasAgent(db, t, c.key.target)
      {
        assert c in Group(db.relations, id);
        RelationRowsInside(db, t, id, s.relations, c);
      }
    }
  }
}
