// Export followed by import: into the same tenant, and into an empty one.
module RoundTrip {
  import opened ConfigModel
  import opened ConfigImport
  import opened ImportTheorems
  import opened SlotOutcomes
  import opened ConfigExport

  // ---- a document with distinct names has distinct steps ----

  ghost predicate DistinctSections(doc: ConfigDoc) {
    && (forall i, j :: 0 <= i < j < |doc.models| ==> doc.models[i].name != doc.models[j].name)
    && (forall i, j :: 0 <= i < j < |doc.servers| ==> doc.servers[i].name != doc.servers[j].name)
    && (forall i, j :: 0 <= i < j < |doc.agents| ==> doc.agents[i].name != doc.agents[j].name)
    && (forall i, j :: 0 <= i < j < |doc.schemas| ==> doc.schemas[i].name != doc.schemas[j].name)
  }

  lemma DistinctAppend(xs: seq<Op>, ys: seq<Op>)
    requires DistinctItems(xs) && DistinctItems(ys) && forall x, y :: x in xs && y in ys ==> !SameItem(x, y)
    ensures DistinctItems(xs + ys)
  {
    forall i, j | 0 <= i < j < |xs + ys| ensures !SameItem((xs + ys)[i], (xs + ys)[j]) {
      if i < |xs| <= j { assert (xs + ys)[i] in xs && (xs + ys)[j] in ys; }
    }
  }

  lemma {:induction false} SyncOpsDistinct(items: seq<AgentItem>)
    requires forall i, j :: 0 <= i < j < |items| ==> items[i].name != items[j].name
    ensures DistinctItems(SyncOps(items))
  {
    if items != [] {
      var rest := items[1..];
      SyncOpsDistinct(rest);
      forall x, y | x in [SyncTools(items[0]), SyncLinks(items[0])] && y in SyncOps(rest) ensures !SameItem(x, y) {
        SyncOpsMembers(rest, y);
        var i :| 0 <= i < |rest| && (y == SyncTools(rest[i]) || y == SyncLinks(rest[i]));
        assert rest[i] == items[i + 1];
      }
      DistinctAppend([SyncTools(items[0]), SyncLinks(items[0])], SyncOps(rest));
    }
  }

  lemma {:induction false} SchemaOpsDistinct(items: seq<SchemaItem>)
    requires forall i, j :: 0 <= i < j < |items| ==> items[i].name != items[j].name
    ensures DistinctItems(SchemaOps(items))
  {
    if items != [] {
      var rest := items[1..];
      SchemaOpsDistinct(rest);
      forall x, y | x in [UpsertSchema(items[0]), ReplaceRelations(items[0])] && y in SchemaOps(rest)
        ensures !SameItem(x, y)
      {
        SchemaOpsMembers(rest, y);
        var i :| 0 <= i < |rest| && (y == UpsertSchema(rest[i]) || y == ReplaceRelations(rest[i]));
        assert rest[i] == items[i + 1];
      }
      DistinctAppend([UpsertSchema(items[0]), ReplaceRelations(items[0])], SchemaOps(rest));
    }
  }

  lemma AllOpsDistinct(doc: ConfigDoc)
    requires DistinctSections(doc)
    ensures DistinctItems(AllOps(doc))
  {
    var a, b, c, d, e := ModelOps(doc.models), ServerOps(doc.servers), AgentOps(doc.agents), SyncOps(doc.agents),
        SchemaOps(doc.schemas);
    SyncOpsDistinct(doc.agents);
    SchemaOpsDistinct(doc.schemas);
    forall y | y in d ensures y.SyncTools? || y.SyncLinks? { SyncOpsMembers(doc.agents, y); }
    forall y | y in e ensures y.UpsertSchema? || y.ReplaceRelations? { SchemaOpsMembers(doc.schemas, y); }
    DistinctAppend(a, b);
    DistinctAppend(a + b, c);
    DistinctAppend(a + b + c, d);
    DistinctAppend(a + b + c + d, e);
  }

  // ---- an export is such a document, and asks for no new schema ----

  lemma AllOpsMembers(doc: ConfigDoc, op: Op)
    ensures op in AllOps(doc) <==> EntityOpOf(doc, op) || (op.UpsertSchema? && op.schema in doc.schemas)
                                   || (op.ReplaceRelations? && op.schema in doc.schemas)
  {
    EntityOpsMembers(doc, op);
    SchemaOpsMembers(doc.schemas, op);
  }

  lemma ExportDistinct(db: Tables, t: string, doc: ConfigDoc)
    requires IsExport(db, t, doc)
    ensures DistinctSections(doc)
  {
  }

  // The gate asks for nothing when every schema of the document exists.
  lemma NothingToAdmit(db: Tables, t: string, doc: ConfigDoc)
    requires IsExport(db, t, doc)
    ensures GateRequest(db, t, doc.schemas) <= 0
  {
    CountNames(doc.schemas);
    assert DistinctNames(doc.schemas);
    NonEmptyCount(doc.schemas);
    forall n | n in NonEmptyNames(doc.schemas) ensures Key(t, n) in db.schemas {
      NonEmptyMember(doc.schemas, n);
    }
    assert ExistingNames(db, t, doc.schemas) == set n | n in NonEmptyNames(doc.schemas);
  }

  lemma {:induction false} NonEmptyMember(items: seq<SchemaItem>, n: string)
    requires n in NonEmptyNames(items)
    ensures exists i :: 0 <= i < |items| && items[i].name == n
  {
    if n == items[0].name {
    } else {
      NonEmptyMember(items[1..], n);
      var i :| 0 <= i < |items[1..]| && items[1..][i].name == n;
      assert items[i + 1].name == n;
    }
  }

  // Distinct names: as many non-empty names as there are in the set of them.
  lemma {:induction false} NonEmptyCount(items: seq<SchemaItem>)
    requires DistinctNames(items)
    ensures |NonEmptyNames(items)| == |set n | n in NonEmptyNames(items)|
  {
    if items != [] {
      var rest := items[1..];
      assert DistinctNames(rest);
      NonEmptyCount(rest);
      var x := items[0].name;
      if x != "" {
        assert forall i :: 0 <= i < |rest| ==> rest[i].name == items[i + 1].name != x;
        if x in NonEmptyNames(rest) { NonEmptyMember(rest, x); }
        assert (set n | n in NonEmptyNames(items)) == {x} + (set n | n in NonEmptyNames(rest));
      } else {
        assert NonEmptyNames(items) == NonEmptyNames(rest);
      }
    }
  }
}
