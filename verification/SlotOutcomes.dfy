// The outcome of a run whose steps have pairwise different targets, slot by slot.
module SlotOutcomes {
  import opened Prelude
  import opened ConfigModel
  import opened ConfigImport
  import opened Writes
  import opened ConfigLaws
  import opened ImportRuns

  // Two steps are of the same kind and name the same item.
  predicate SameItem(x: Op, y: Op) {
    match (x, y)
    case (UpsertModel(m), UpsertModel(m')) => m.name == m'.name
    case (UpsertServer(s), UpsertServer(s')) => s.name == s'.name
    case (UpsertAgent(a), UpsertAgent(a')) => a.name == a'.name
    case (SyncTools(a), SyncTools(a')) => a.name == a'.name
    case (SyncLinks(a), SyncLinks(a')) => a.name == a'.name
    case (UpsertSchema(s), UpsertSchema(s')) => s.name == s'.name
    case (ReplaceRelations(s), ReplaceRelations(s')) => s.name == s'.name
    case _ => false
  }

  ghost predicate DistinctItems(ops: seq<Op>) {
    forall i, j :: 0 <= i < j < |ops| ==> !SameItem(ops[i], ops[j])
  }

  ghost predicate IdsIdentify(db: Tables) {
    && (forall k, k' :: k in db.agents && k' in db.agents && db.agents[k].id == db.agents[k'].id ==> k == k')
    && (forall k, k' :: k in db.schemas && k' in db.schemas && db.schemas[k].id == db.schemas[k'].id ==> k == k')
  }

  lemma OwnersDiffer(db: Tables, t: string, x: Op, y: Op)
    requires IdsIdentify(db) && Valid(db, t, x) && Valid(db, t, y) && !SameItem(x, y)
    ensures Target(Resolve(db, t, x)) != Target(Resolve(db, t, y))
  {
  }

  lemma DifferentTargets(db: Tables, t: string, x: Op, y: Op)
    requires WellFormed(db) && Valid(db, t, x) && Valid(db, t, y) && !SameItem(x, y)
    ensures Target(Resolve(db, t, x)) != Target(Resolve(db, t, y))
  {
    IdsOfTables(db);
    OwnersDiffer(db, t, x, y);
  }

  // The slot of op holds what op writes over the slot's content in `db`.
  ghost predicate Written(db: Tables, f: Tables, t: string, op: Op) {
    && Ready(f, t, op)
    && var w := Resolve(f, t, op);
       exists n: nat :: Look(f, Target(w)) == After(w, Look(db, Target(w)), n)
  }

  ghost predicate Untargeted(f: Tables, t: string, ops: seq<Op>, s: Slot)
    requires forall op :: op in ops ==> Valid(f, t, op)
  {
    forall op :: op in ops ==> Target(Resolve(f, t, op)) != s
  }

  // A successful run with distinct items leaves each item's slot as that item wrote it, and
  // every other slot as it was.
  lemma {:induction false} DistinctRun(db: Tables, t: string, ops: seq<Op>)
    requires WellFormed(db) && DistinctItems(ops) && FoldSteps(Step(t), db, ops).Ok?
    ensures var f := FoldSteps(Step(t), db, ops).value;
            && WellFormed(f) && IdsExtend(db, f)
            && (forall op :: op in ops ==> Written(db, f, t, op))
            && (forall s :: Untargeted(f, t, ops, s) ==> Look(f, s) == Look(db, s))
    decreases |ops|
  {
    FoldKeeps(db, t, ops);
    if ops != [] {
      var x, rest := ops[0], ops[1..];
      var db1 := Apply(db, t, x).value;
      var f := FoldSteps(Step(t), db, ops).value;
      StepKeeps(db, t, x);
      StepMakesReady(db, t, x);
      DistinctRun(db1, t, rest);
      FoldKeeps(db1, t, rest);
      var w := Resolve(db, t, x);
      ResolveExtends(db, f, t, x);
      DoMoves(db, w);
      OtherTargets(f, t, ops);
      FirstWritten(db, db1, f, t, x, rest);
      forall y | y in rest ensures Written(db, f, t, y) {
        LaterWritten(db, db1, f, t, w, y);
      }
      forall s | Untargeted(f, t, ops, s) ensures Look(f, s) == Look(db, s) {
        UntargetedKept(db, db1, f, t, ops, s);
      }
    }
  }

  lemma OtherTargets(f: Tables, t: string, ops: seq<Op>)
    requires WellFormed(f) && DistinctItems(ops) && ops != [] && forall op :: op in ops ==> Valid(f, t, op)
    ensures forall y :: y in ops[1..] ==> Target(Resolve(f, t, y)) != Target(Resolve(f, t, ops[0]))
  {
    forall y | y in ops[1..] ensures Target(Resolve(f, t, y)) != Target(Resolve(f, t, ops[0])) {
      var j :| 0 <= j < |ops[1..]| && ops[1..][j] == y;
      assert !SameItem(ops[0], ops[j + 1]);
      DifferentTargets(f, t, ops[0], y);
    }
  }

  lemma UntargetedKept(db: Tables, db1: Tables, f: Tables, t: string, ops: seq<Op>, s: Slot)
    requires ops != [] && (forall op :: op in ops ==> Valid(f, t, op)) && Untargeted(f, t, ops, s)
    requires Moves(ViewOf(db), Resolve(f, t, ops[0]), ViewOf(db1))
    requires Untargeted(f, t, ops[1..], s) ==> Look(f, s) == Look(db1, s)
    ensures Look(f, s) == Look(db, s)
  {
    assert ops[0] in ops;
    assert Untargeted(f, t, ops[1..], s);
    assert ViewOf(db1).look(s) == Look(db1, s) && ViewOf(db).look(s) == Look(db, s);
  }

  lemma FirstWritten(db: Tables, db1: Tables, f: Tables, t: string, x: Op, rest: seq<Op>)
    requires Valid(db, t, x) && Ready(f, t, x) && Resolve(f, t, x) == Resolve(db, t, x)
    requires Moves(ViewOf(db), Resolve(db, t, x), ViewOf(db1))
    requires forall y :: y in rest ==> Valid(f, t, y) && Target(Resolve(f, t, y)) != Target(Resolve(db, t, x))
    requires Untargeted(f, t, rest, Target(Resolve(db, t, x))) ==>
          Look(f, Target(Resolve(db, t, x))) == Look(db1, Target(Resolve(db, t, x)))
    ensures Written(db, f, t, x)
  {
    var w := Resolve(db, t, x);
    assert Untargeted(f, t, rest, Target(w));
    assert ViewOf(db1).look(Target(w)) == Look(db1, Target(w)) && ViewOf(db).look(Target(w)) == Look(db, Target(w));
    assert Look(f, Target(w)) == After(w, Look(db, Target(w)), db.nextId);
  }

  lemma LaterWritten(db: Tables, db1: Tables, f: Tables, t: string, w: Write, y: Op)
    requires Moves(ViewOf(db), w, ViewOf(db1)) && Written(db1, f, t, y) && Target(Resolve(f, t, y)) != Target(w)
    ensures Written(db, f, t, y)
  {
    var s := Target(Resolve(f, t, y));
    assert ViewOf(db1).look(s) == Look(db1, s) && ViewOf(db).look(s) == Look(db, s);
  }
}
