// Results of synchronously run agents, stashed for a later wait: one bucket per tenant and
// session, each result handed out once, unclaimed results swept after a time to live.
module SpawnStash {
  import opened Prelude

  // In milliseconds.
  const TTL: int := 600_000

  datatype Completion = Completion(agentId: string, status: string, result: string)

  datatype Stashed = Stashed(info: Completion, stashed: int)

  type Buckets = map<string, map<string, Stashed>>

  function BucketKey(tenant: string, session: string): string { tenant + "/" + session }

  // ---- bucket keys ----

  // The other tenant id goes on after a slash, and what follows is part of this session id.
  predicate Nested(tenant: string, session: string, other: string, otherSession: string) {
    tenant + "/" <= other && session == other[|tenant| + 1..] + "/" + otherSession
  }

  lemma NestedCollides(t: string, s: string, u: string, v: string)
    requires Nested(t, s, u, v)
    ensures BucketKey(t, s) == BucketKey(u, v)
  {
    var w := u[|t| + 1..];
    assert u == t + "/" + w;
    calc {
      BucketKey(u, v);
      t + "/" + w + "/" + v;
      t + "/" + (w + "/" + v);
    }
  }

  lemma ShorterTenantNests(t: string, s: string, u: string, v: string)
    requires |t| < |u| && BucketKey(t, s) == BucketKey(u, v)
    ensures Nested(t, s, u, v)
  {
    var key := BucketKey(t, s);
    assert key == t + "/" + s && key == u + "/" + v;
    assert key[..|t| + 1] == t + "/" == u[..|t| + 1];
    assert s == key[|t| + 1..];
    var w := u[|t| + 1..];
    assert u == u[..|t| + 1] + w;
    assert key == (t + "/") + (w + "/" + v);
    assert key[|t| + 1..] == w + "/" + v;
  }

  // Two tenant and session pairs share a bucket exactly when they are the same pair or one tenant
  // id extends the other across a slash.
  lemma SharedBucket(t: string, s: string, u: string, v: string)
    ensures BucketKey(t, s) == BucketKey(u, v)
       <==> (t == u && s == v) || Nested(t, s, u, v) || Nested(u, v, t, s)
  {
    if Nested(t, s, u, v) { NestedCollides(t, s, u, v); }
    if Nested(u, v, t, s) { NestedCollides(u, v, t, s); }
    if BucketKey(t, s) == BucketKey(u, v) {
      if |t| < |u| {
        ShorterTenantNests(t, s, u, v);
      } else if |u| < |t| {
        ShorterTenantNests(u, v, t, s);
      } else {
        var key := BucketKey(t, s);
        assert key[..|t|] == t && key[..|u|] == u && key[|t| + 1..] == s && key[|u| + 1..] == v;
      }
    }
  }

  lemma NoSlashNoNesting(t: string, s: string, u: string, v: string)
    requires '/' !in u
    ensures !Nested(t, s, u, v)
  {
    var prefix := t + "/";
    assert prefix[|t|] == '/';
  }

  lemma KeysInjectiveWithoutSlash(t: string, s: string, u: string, v: string)
    requires '/' !in t && '/' !in u && BucketKey(t, s) == BucketKey(u, v)
    ensures t == u && s == v
  {
    SharedBucket(t, s, u, v);
    NoSlashNoNesting(t, s, u, v);
    NoSlashNoNesting(u, v, t, s);
  }

  lemma SlashedTenantsShareABucket()
    ensures BucketKey("a", "b/c") == BucketKey("a/b", "c") && "a" != "a/b"
  {
    assert BucketKey("a", "b/c") == "a/b/c" == BucketKey("a/b", "c");
  }

  // ---- specification of the operations ----

  function Kept(bucket: map<string, Stashed>, cutoff: int): map<string, Stashed> {
    map id | id in bucket && cutoff <= bucket[id].stashed :: bucket[id]
  }

  function Swept(b: Buckets, cutoff: int): Buckets {
    map key | key in b && Kept(b[key], cutoff) != map[] :: Kept(b[key], cutoff)
  }

  function Put(b: Buckets, key: string, id: string, entry: Stashed): Buckets {
    b[key := (if key in b then b[key] else map[])[id := entry]]
  }

  function Without(b: Buckets, key: string, id: string): Buckets {
    if key !in b || id !in b[key] then b
    else if b[key] - {id} == map[] then b - {key}
    else b[key := b[key] - {id}]
  }

  function Find(b: Buckets, key: string, id: string): Option<Stashed> {
    if key in b && id in b[key] then Some(b[key][id]) else None
  }

  predicate NoEmptyBucket(b: Buckets) {
    forall key :: key in b ==> b[key] != map[]
  }

  // A stash sweeps at one clock reading and stamps its entry with a later one.
  datatype Step = StashStep(key: string, id: string, info: Completion, sweptAt: int, stashedAt: int)
                | TakeStep(key: string, id: string)

  function After(b: Buckets, step: Step): Buckets {
    match step
    case StashStep(key, id, info, sweptAt, stashedAt) =>
      Put(Swept(b, sweptAt - TTL), key, id, Stashed(info, stashedAt))
    case TakeStep(key, id) => Without(b, key, id)
  }

  function AfterAll(b: Buckets, steps: seq<Step>): Buckets
    decreases |steps|
  {
    if steps == [] then b else AfterAll(After(b, steps[0]), steps[1..])
  }

  // ---- one entry seen on its own ----

  predicate Concerns(step: Step, key: string, id: string) {
    step.key == key && step.id == id
  }

  // What a step does to the entry (key, id), whatever else the buckets hold.
  function CellAfter(cell: Option<Stashed>, step: Step, key: string, id: string): Option<Stashed> {
    match step
    case StashStep(_, _, info, sweptAt, stashedAt) =>
      if Concerns(step, key, id) then Some(Stashed(info, stashedAt))
      else if cell.Some? && cell.value.stashed < sweptAt - TTL then None
      else cell
    case TakeStep(_, _) => if Concerns(step, key, id) then None else cell
  }

  function CellAfterAll(cell: Option<Stashed>, steps: seq<Step>, key: string, id: string): Option<Stashed>
    decreases |steps|
  {
    if steps == [] then cell else CellAfterAll(CellAfter(cell, steps[0], key, id), steps[1..], key, id)
  }

  lemma FindSwept(b: Buckets, cutoff: int, key: string, id: string)
    ensures Find(Swept(b, cutoff), key, id)
         == var e := Find(b, key, id); if e.Some? && e.value.stashed < cutoff then None else e
  {
    if key in b && id in b[key] && cutoff <= b[key][id].stashed {
      assert id in Kept(b[key], cutoff);
    }
  }

  lemma StepOnCell(b: Buckets, step: Step, key: string, id: string)
    ensures Find(After(b, step), key, id) == CellAfter(Find(b, key, id), step, key, id)
  {
    match step
    case StashStep(_, _, _, sweptAt, _) => FindSwept(b, sweptAt - TTL, key, id);
    case TakeStep(k, i) =>
      if k in b && i in b[k] && k == key && id in b[k] && id != i {
        assert id in b[k] - {i};
      }
  }

  // The nested map behaves as one independent cell for every bucket key and agent id.
  lemma {:induction false} RunOnCell(b: Buckets, steps: seq<Step>, key: string, id: string)
    ensures Find(AfterAll(b, steps), key, id) == CellAfterAll(Find(b, key, id), steps, key, id)
    decreases |steps|
  {
    if steps != [] {
      StepOnCell(b, steps[0], key, id);
      RunOnCell(After(b, steps[0]), steps[1..], key, id);
    }
  }

  predicate LeavesAlone(steps: seq<Step>, key: string, id: string) {
    forall step :: step in steps ==> !Concerns(step, key, id)
  }

  // No sweep of the run comes more than the time to live after the entry was stashed.
  predicate InTime(steps: seq<Step>, stashed: int) {
    forall step :: step in steps && step.StashStep? ==> step.sweptAt - 10 * 60 * 1000 <= stashed
  }

  lemma {:induction false} CellLeftAlone(cell: Stashed, steps: seq<Step>, key: string, id: string)
    requires LeavesAlone(steps, key, id)
    ensures CellAfterAll(Some(cell), steps, key, id) == if InTime(steps, cell.stashed) then Some(cell) else None
    decreases |steps|
  {
    if steps != [] {
      assert steps[0] in steps && steps == [steps[0]] + steps[1..];
      if CellAfter(Some(cell), steps[0], key, id) == None {
        EmptyCellStays(steps[1..], key, id);
      } else {
        CellLeftAlone(cell, steps[1..], key, id);
      }
    }
  }

  predicate NeverStashed(steps: seq<Step>, key: string, id: string) {
    forall step :: step in steps && step.StashStep? ==> !Concerns(step, key, id)
  }

  lemma {:induction false} EmptyCellStays(steps: seq<Step>, key: string, id: string)
    requires NeverStashed(steps, key, id)
    ensures CellAfterAll(None, steps, key, id) == None
    decreases |steps|
  {
    if steps != [] {
      assert steps[0] in steps;
      EmptyCellStays(steps[1..], key, id);
    }
  }

  // A wait that comes after any run of stashes and waits for other results gets the result exactly
  // when no sweep in between came later than the time to live allows; and once a wait got it no
  // later wait does, until a result is stashed under the same key and id again.
  lemma TakenOnceOrExpired(b: Buckets, stash: Step, before: seq<Step>, after: seq<Step>)
    requires stash.StashStep? && LeavesAlone(before, stash.key, stash.id)
    requires NeverStashed(after, stash.key, stash.id)
    ensures var found := Find(AfterAll(After(b, stash), before), stash.key, stash.id);
            && (found == Some(Stashed(stash.info, stash.stashedAt)) <==> InTime(before, stash.stashedAt))
            && (found == None <==> !InTime(before, stash.stashedAt))
    ensures var taken := After(AfterAll(After(b, stash), before), TakeStep(stash.key, stash.id));
            Find(AfterAll(taken, after), stash.key, stash.id) == None
  {
    var key, id := stash.key, stash.id;
    var stashed := After(b, stash);
    StepOnCell(b, stash, key, id);
    RunOnCell(stashed, before, key, id);
    CellLeftAlone(Stashed(stash.info, stash.stashedAt), before, key, id);
    var waited := AfterAll(stashed, before);
    StepOnCell(waited, TakeStep(key, id), key, id);
    RunOnCell(After(waited, TakeStep(key, id)), after, key, id);
    EmptyCellStays(after, key, id);
  }

  // The step is another tenant's or session's, and its tenant id has no slash.
  predicate Foreign(step: Step, t: string, s: string, u: string, v: string) {
    '/' !in u && (u != t || v != s) && step.key == BucketKey(u, v)
  }

  ghost predicate AllForeign(steps: seq<Step>, t: string, s: string) {
    forall step :: step in steps ==> exists u: string, v: string :: Foreign(step, t, s, u, v)
  }

  lemma ForeignLeavesAlone(steps: seq<Step>, t: string, s: string, id: string)
    requires '/' !in t && AllForeign(steps, t, s)
    ensures LeavesAlone(steps, BucketKey(t, s), id)
  {
    forall step | step in steps ensures !Concerns(step, BucketKey(t, s), id) {
      var u: string, v: string :| Foreign(step, t, s, u, v);
      if BucketKey(t, s) == BucketKey(u, v) { KeysInjectiveWithoutSlash(t, s, u, v); }
    }
  }

  // With slash-free tenant ids other tenants and sessions add nothing that this one can find, and of
  // what it could find their waits and stashes take away only what has outlived the time to live: an
  // entry is found after any run of theirs exactly if no stash of the run swept that late.
  lemma SessionsIsolated(b: Buckets, t: string, s: string, steps: seq<Step>, id: string)
    requires '/' !in t && AllForeign(steps, t, s)
    ensures var was := Find(b, BucketKey(t, s), id);
            Find(AfterAll(b, steps), BucketKey(t, s), id)
            == if was.Some? && InTime(steps, was.value.stashed) then was else None
  {
    var key := BucketKey(t, s);
    ForeignLeavesAlone(steps, t, s, id);
    RunOnCell(b, steps, key, id);
    match Find(b, key, id)
    case Some(entry) => CellLeftAlone(entry, steps, key, id);
    case None => EmptyCellStays(steps, key, id);
  }

  lemma StepLeavesNoEmptyBucket(b: Buckets, step: Step)
    requires NoEmptyBucket(b)
    ensures NoEmptyBucket(After(b, step))
  {
    match step
    case StashStep(key, id, info, sweptAt, stashedAt) =>
      assert NoEmptyBucket(Swept(b, sweptAt - TTL));
      assert id in After(b, step)[key];
    case TakeStep(key, id) =>
  }

  lemma {:induction false} NoEmptyBucketEver(b: Buckets, steps: seq<Step>)
    requires NoEmptyBucket(b)
    ensures NoEmptyBucket(AfterAll(b, steps))
    decreases |steps|
  {
    if steps != [] {
      StepLeavesNoEmptyBucket(b, steps[0]);
      NoEmptyBucketEver(After(b, steps[0]), steps[1..]);
    }
  }

  // ---- the code ----

  class Spawner {
    var completed: Buckets

    constructor ()
      ensures completed == map[]
    {
      completed := map[];
    }

    method SweepBucket(key: string, cutoff: int)
      requires key in completed
      modifies this
      ensures completed == old(completed)[key := Kept(old(completed)[key], cutoff)]
    {
      ghost var was := completed[key];
      var ids := completed[key].Keys;
      while ids != {}
        invariant key in completed && completed == old(completed)[key := completed[key]]
        invariant ids <= was.Keys
        invariant forall id :: id in completed[key] <==> id in was && (id in ids || cutoff <= was[id].stashed)
        invariant forall id :: id in completed[key] ==> completed[key][id] == was[id]
        decreases ids
      {
        var id :| id in ids;
        ids := ids - {id};
        if completed[key][id].stashed < cutoff {
          completed := completed[key := completed[key] - {id}];
        }
      }
      assert completed[key] == Kept(was, cutoff);
    }

    method SweepStale(now: int)
      modifies this
      ensures completed == Swept(old(completed), now - TTL)
    {
      var cutoff := now - TTL;
      ghost var was := completed;
      var keys := completed.Keys;
      while keys != {}
        invariant keys <= was.Keys
        invariant forall key :: key in completed <==>
                                key in was && (key in keys || Kept(was[key], cutoff) != map[])
        invariant forall key :: key in completed ==>
                                completed[key] == if key in keys then was[key] else Kept(was[key], cutoff)
        decreases keys
      {
        var key :| key in keys;
        keys := keys - {key};
        SweepBucket(key, cutoff);
        if completed[key] == map[] {
          completed := completed - {key};
        }
      }
      assert completed == Swept(was, cutoff);
    }

    method StashUnder(key: string, id: string, info: Completion, sweptAt: int, stashedAt: int)
      modifies this
      ensures completed == After(old(completed), StashStep(key, id, info, sweptAt, stashedAt))
    {
      SweepStale(sweptAt);
      Insert(key, id, Stashed(info, stashedAt));
    }

    method StashResult(tenant: string, session: string, id: string, result: string, sweptAt: int, stashedAt: int)
      requires NoEmptyBucket(completed)
      modifies this
      ensures completed == After(old(completed), StashStep(BucketKey(tenant, session), id,
                                 Completion(id, "completed", result), sweptAt, stashedAt))
      ensures NoEmptyBucket(completed)
    {
      ghost var step := StashStep(BucketKey(tenant, session), id, Completion(id, "completed", result), sweptAt,
          stashedAt);
      StepLeavesNoEmptyBucket(completed, step);
      StashUnder(BucketKey(tenant, session), id, Completion(id, "completed", result), sweptAt, stashedAt);
    }

    method Insert(key: string, id: string, entry: Stashed)
      modifies this
      ensures completed == Put(old(completed), key, id, entry)
    {
      if key !in completed {
        completed := completed[key := map[]];
      }
      completed := completed[key := completed[key][id := entry]];
    }

    method TakeStashed(key: string, id: string) returns (info: Option<Completion>)
      requires NoEmptyBucket(completed)
      modifies this
      ensures completed == After(old(completed), TakeStep(key, id)) && NoEmptyBucket(completed)
      ensures info == match Find(old(completed), key, id) case Some(e) => Some(e.info) case None => None
    {
      StepLeavesNoEmptyBucket(completed, TakeStep(key, id));
      if key !in completed { return None; }
      if id !in completed[key] { return None; }
      info := Some(completed[key][id].info);
      completed := completed[key := completed[key] - {id}];
      if completed[key] == map[] {
        completed := completed - {key};
      }
    }

    // None stands for asking the pool, which knows the asynchronously spawned agents.
    method WaitForAgent(tenant: string, session: string, id: string) returns (info: Option<Completion>)
      requires NoEmptyBucket(completed)
      modifies this
      ensures completed == After(old(completed), TakeStep(BucketKey(tenant, session), id)) && NoEmptyBucket(completed)
      ensures info
            == match Find(old(completed), BucketKey(tenant, session), id) case Some(e) => Some(e.info) case None => None
    {
      info := TakeStashed(BucketKey(tenant, session), id);
    }
  }
}
