// Whole import runs: importing twice equals importing once, steps with distinct targets are
// all still settled at the end, and what no run changes.
module ImportRuns {
  import opened Prelude
  import opened ConfigModel
  import opened ConfigImport
  import opened Writes
  import opened ConfigLaws

  // ---- one step ----

  lemma StepKeeps(db: Tables, t: string, op: Op)
    requires WellFormed(db) && Apply(db, t, op).Ok?
    ensures Valid(db, t, op)
    ensures var db' := Apply(db, t, op).value;
            db' == Do(db, Resolve(db, t, op)) && WellFormed(db') && IdsExtend(db, db')
  {
    StepClosed(db, t, op);
    ResolveOwned(db, t, op);
    DoKeepsWellFormed(db, t, Resolve(db, t, op));
    DoExtends(db, Resolve(db, t, op));
  }

  lemma ExtendsTransitive(a: Tables, b: Tables, c: Tables)
    requires IdsExtend(a, b) && IdsExtend(b, c)
    ensures IdsExtend(a, c)
  {
    forall k | k in c.schemas && k !in a.schemas ensures !c.schemas[k].isSystem {
      if k in b.schemas { assert c.schemas[k].isSystem == b.schemas[k].isSystem; }
    }
  }

  // The op is valid and its slot is filled.
  ghost predicate Ready(db: Tables, t: string, op: Op) {
    Valid(db, t, op) && Look(db, Target(Resolve(db, t, op))) != Absent
  }

  lemma ReadyExtends(b: Tables, a: Tables, t: string, op: Op)
    requires IdsExtend(b, a) && Ready(b, t, op)
    ensures Ready(a, t, op) && Resolve(a, t, op) == Resolve(b, t, op)
  {
    ResolveExtends(b, a, t, op);
    PresentExtends(b, a, Target(Resolve(b, t, op)));
  }

  lemma PresentExtends(b: Tables, a: Tables, s: Slot)
    requires IdsExtend(b, a) && Look(b, s) != Absent
    ensures Look(a, s) != Absent
  {
  }

  lemma StepMakesReady(db: Tables, t: string, op: Op)
    requires WellFormed(db) && Apply(db, t, op).Ok?
    ensures Ready(Apply(db, t, op).value, t, op)
    ensures Apply(Apply(db, t, op).value, t, op) == Apply(db, t, op)
  {
    StepKeeps(db, t, op);
    var db' := Apply(db, t, op).value;
    ResolveExtends(db, db', t, op);
    DoTwice(db, Resolve(db, t, op));
    StepClosed(db', t, op);
  }

  // ---- folds ----

  lemma {:induction false} FoldKeeps(db: Tables, t: string, ops: seq<Op>)
    requires WellFormed(db) && FoldSteps(Step(t), db, ops).Ok?
    ensures var db' := FoldSteps(Step(t), db, ops).value;
            && WellFormed(db') && IdsExtend(db, db')
            && forall op :: op in ops ==> Ready(db', t, op)
    decreases |ops|
  {
    if ops != [] {
      var db1 := Apply(db, t, ops[0]).value;
      var db' := FoldSteps(Step(t), db, ops).value;
      StepKeeps(db, t, ops[0]);
      StepMakesReady(db, t, ops[0]);
      FoldKeeps(db1, t, ops[1..]);
      ExtendsTransitive(db, db1, db');
      ReadyExtends(db1, db', t, ops[0]);
    }
  }

  // Writing to a filled slot hands out no id, so the ids are the same before and after.
  lemma ReadyStepKeepsIds(db: Tables, t: string, op: Op)
    requires WellFormed(db) && Ready(db, t, op)
    ensures Apply(db, t, op).Ok? && IdsExtend(Apply(db, t, op).value, db)
  {
    StepClosed(db, t, op);
    var w := Resolve(db, t, op);
    var db' := Do(db, w);
    DoMoves(db, w);
    LookFits(db, Target(w));
    forall s | IsEntity(s)
      ensures Look(db', s) != Absent ==> Look(db, s) != Absent && CellId(Look(db, s)) == CellId(Look(db', s))
      ensures SystemCell(Look(db', s)) == SystemCell(Look(db, s))
    {
      assert ViewOf(db').look(s) == Look(db', s) && ViewOf(db).look(s) == Look(db, s);
      if s == Target(w) { AfterKeepsId(w, Look(db, s), db.nextId); }
    }
    ExtendFromSlots(db', db);
  }

  // If x makes a and b equal, it still does after a list of steps that are all ready in both.
  lemma {:induction false} SimilarFold(a: Tables, b: Tables, t: string, x: Op, ops: seq<Op>)
    requires WellFormed(a) && WellFormed(b) && IdsExtend(b, a)
    requires Apply(b, t, x).Ok? && Apply(a, t, x) == Apply(b, t, x)
    requires forall y :: y in ops ==> Ready(b, t, y)
    requires FoldSteps(Step(t), b, ops).Ok?
    ensures FoldSteps(Step(t), a, ops).Ok?
    ensures Apply(FoldSteps(Step(t), a, ops).value, t, x) == Apply(FoldSteps(Step(t), b, ops).value, t, x)
    decreases |ops|
  {
    if ops != [] {
      var y := ops[0];
      ReadyStepKeepsIds(b, t, y);
      ReadyExtends(b, a, t, y);
      ReadyStepKeepsIds(a, t, y);
      StepKeeps(a, t, y); StepKeeps(b, t, y);
      var a1, b1 := Apply(a, t, y).value, Apply(b, t, y).value;
      SimilarStep(a, b, a1, b1, t, x, y);
      ExtendsTransitive(b1, b, a);
      ExtendsTransitive(b1, a, a1);
      forall z | z in ops[1..] ensures Ready(b1, t, z) { ReadyExtends(b, b1, t, z); }
      SimilarFold(a1, b1, t, x, ops[1..]);
    }
  }

  lemma SimilarStep(a: Tables, b: Tables, a1: Tables, b1: Tables, t: string, x: Op, y: Op)
    requires WellFormed(a) && WellFormed(b) && IdsExtend(b, a)
    requires Ready(a, t, y) && Ready(b, t, y)
    requires Apply(b, t, x).Ok? && Apply(a, t, x) == Apply(b, t, x)
    requires Apply(a, t, y) == Ok(a1) && Apply(b, t, y) == Ok(b1)
    ensures Apply(b1, t, x).Ok? && Apply(a1, t, x) == Apply(b1, t, x)
  {
    StepKeeps(a, t, x); StepKeeps(b, t, x); StepKeeps(a, t, y); StepKeeps(b, t, y);
    ResolveExtends(b, a, t, x); ResolveExtends(b, a, t, y);
    ResolveExtends(a, a1, t, x); ResolveExtends(b, b1, t, x);
    StepClosed(a1, t, x); StepClosed(b1, t, x);
    DoSimilar(a, b, Resolve(b, t, x), Resolve(b, t, y));
  }

  // Running a list of import steps over its own result changes nothing, repeated names included.
  lemma {:induction false} FoldIdempotent(db: Tables, t: string, ops: seq<Op>)
    requires WellFormed(db) && FoldSteps(Step(t), db, ops).Ok?
    ensures var db' := FoldSteps(Step(t), db, ops).value;
            FoldSteps(Step(t), db', ops) == Ok(db')
    decreases |ops|
  {
    if ops != [] {
      var m, x := ops[..|ops| - 1], ops[|ops| - 1];
      assert ops == m + [x];
      FoldSnoc(Step(t), db, m, x);
      var s1 := FoldSteps(Step(t), db, m).value;
      var s2 := Apply(s1, t, x).value;
      FoldIdempotent(db, t, m);
      FoldKeeps(db, t, m);
      StepKeeps(s1, t, x);
      StepMakesReady(s1, t, x);
      SimilarFold(s2, s1, t, x, m);
      FoldSnoc(Step(t), s2, m, x);
    }
  }
}
