// The prompt prefix of each tenant behind a cache with a time to live and a size cap that drops
// everything at once when it is reached.
module PrefixCache {
  import opened Prelude
  import opened Timeline

  // In milliseconds.
  const TTL: int := 60_000

  const MAX_ENTRIES: nat := 10000

  const SENTINEL: string := "00000000-0000-0000-0000-000000000001"

  datatype Entry = Entry(value: string, expiresAt: int)

  type Cache = map<string, Entry>

  function Stored(cache: Cache, tenant: string, value: string, now: int): Cache {
    (if |cache| >= MAX_ENTRIES then map[] else cache)[tenant := Entry(value, now + TTL)]
  }

  function Hit(cache: Cache, tenant: string, now: int): Option<string> {
    if tenant in cache && now < cache[tenant].expiresAt then Some(cache[tenant].value) else None
  }

  // ---- the stores of a run, and what of them is still remembered ----

  // `seen` only observes: how many policy writes the read of the value had seen, none if it failed.
  datatype Store = Store(tenant: string, value: string, at: int, seen: Option<nat>)

  function Tenants(stores: seq<Store>): set<string> { set s | s in stores :: s.tenant }

  // The stores since the last one that found the cache full.
  function Remembered(stores: seq<Store>): seq<Store> {
    if stores == [] then []
    else
      var before, s := Remembered(stores[..|stores| - 1]), stores[|stores| - 1];
      if |Tenants(before)| >= MAX_ENTRIES then [s] else before + [s]
  }

  // The last store for the tenant.
  function Latest(stores: seq<Store>, tenant: string): Option<Store> {
    if stores == [] then None
    else if stores[|stores| - 1].tenant == tenant then Some(stores[|stores| - 1])
    else Latest(stores[..|stores| - 1], tenant)
  }

  function CacheAfter(stores: seq<Store>): Cache {
    if stores == [] then map[]
    else
      var s := stores[|stores| - 1];
      Stored(CacheAfter(stores[..|stores| - 1]), s.tenant, s.value, s.at)
  }

  predicate Agrees(cache: Cache, stores: seq<Store>) {
    && cache.Keys == Tenants(stores)
    && forall tenant :: tenant in cache ==>
         var last := Latest(stores, tenant);
         last.Some? && cache[tenant] == Entry(last.value.value, last.value.at + TTL)
  }

  lemma LatestSnoc(stores: seq<Store>, s: Store, tenant: string)
    ensures Latest(stores + [s], tenant) == if s.tenant == tenant then Some(s) else Latest(stores, tenant)
  {
    assert (stores + [s])[..|stores|] == stores;
  }

  lemma AgreesSnoc(cache: Cache, stores: seq<Store>, s: Store)
    requires Agrees(cache, stores)
    ensures Agrees(cache[s.tenant := Entry(s.value, s.at + TTL)], stores + [s])
  {
    var cache', stores' := cache[s.tenant := Entry(s.value, s.at + TTL)], stores + [s];
    forall tenant ensures tenant in Tenants(stores') <==> tenant in Tenants(stores) || tenant == s.tenant {
      assert forall x :: x in stores' <==> x in stores || x == s;
    }
    forall tenant | tenant in cache' ensures
      var last := Latest(stores', tenant);
      last.Some? && cache'[tenant] == Entry(last.value.value, last.value.at + TTL)
    {
      LatestSnoc(stores, s, tenant);
    }
  }

  lemma {:induction false} CacheIsRemembered(stores: seq<Store>)
    ensures Agrees(CacheAfter(stores), Remembered(stores))
    decreases |stores|
  {
    if stores != [] {
      var before, s := stores[..|stores| - 1], stores[|stores| - 1];
      CacheIsRemembered(before);
      assert |CacheAfter(before)| == |CacheAfter(before).Keys|;
      if |CacheAfter(before)| >= MAX_ENTRIES {
        AgreesSnoc(map[], [], s);
        assert [] + [s] == [s];
      } else {
        AgreesSnoc(CacheAfter(before), Remembered(before), s);
      }
    }
  }

  lemma {:induction false} RememberedIsSuffix(stores: seq<Store>, tenant: string)
    ensures Latest(Remembered(stores), tenant) in {None, Latest(stores, tenant)}
    decreases |stores|
  {
    if stores != [] {
      var before, s := stores[..|stores| - 1], stores[|stores| - 1];
      RememberedIsSuffix(before, tenant);
      if |Tenants(Remembered(before))| >= MAX_ENTRIES {
        LatestSnoc([], s, tenant);
        assert [] + [s] == [s];
      } else {
        LatestSnoc(Remembered(before), s, tenant);
      }
    }
  }

  lemma {:induction false} LatestIsAStore(stores: seq<Store>, tenant: string)
    ensures match Latest(stores, tenant)
            case Some(s) => s in stores && s.tenant == tenant
            case None => tenant !in Tenants(stores)
    decreases |stores|
  {
    if stores != [] {
      LatestIsAStore(stores[..|stores| - 1], tenant);
      assert stores == stores[..|stores| - 1] + [stores[|stores| - 1]];
    }
  }

  // Over every sequence of stores: a lookup hits exactly if the tenant's last store is younger than
  // the time to live and was not dropped by a reset, and then it gives the value of that store.
  lemma HitIsLatestStore(stores: seq<Store>, tenant: string, now: int)
    ensures match Hit(CacheAfter(stores), tenant, now)
            case Some(value) =>
              && var last := Latest(stores, tenant);
              && last.Some? && last.value in stores && last.value.tenant == tenant
              && last.value.value == value && now < last.value.at + 60_000
              && tenant in Tenants(Remembered(stores))
            case None =>
              tenant !in Tenants(Remembered(stores))
              || (Latest(stores, tenant).Some? && Latest(stores, tenant).value.at + 60_000 <= now)
  {
    CacheIsRemembered(stores);
    RememberedIsSuffix(stores, tenant);
    LatestIsAStore(stores, tenant);
    LatestIsAStore(Remembered(stores), tenant);
  }

  lemma {:induction false} NeverOverfull(stores: seq<Store>)
    ensures |CacheAfter(stores)| <= 10_000
    decreases |stores|
  {
    if stores != [] {
      var s := stores[|stores| - 1];
      NeverOverfull(stores[..|stores| - 1]);
      var kept := if |CacheAfter(stores[..|stores| - 1])| >= MAX_ENTRIES then map[]
          else CacheAfter(stores[..|stores| - 1]);
      assert kept[s.tenant := Entry(s.value, s.at + TTL)].Keys == kept.Keys + {s.tenant};
      AddOne(kept.Keys, s.tenant);
    }
  }

  lemma AddOne(keys: set<string>, key: string)
    ensures |keys + {key}| <= |keys| + 1
  {
    if key in keys { assert keys + {key} == keys; }
  }

  // A store keeps the entries of other tenants exactly as long as the cache is not full; a full one is
  // dropped even to refresh a tenant that it holds.
  lemma RefreshCanReset(cache: Cache, tenant: string, other: string, value: string, now: int, later: int)
    requires other != tenant
    ensures Hit(Stored(cache, tenant, value, now), other, later)
         == if |cache| < 10_000 then Hit(cache, other, later) else None
    ensures Hit(Stored(cache, tenant, value, now), tenant, later)
         == if later < now + 60_000 then Some(value) else None
  {
  }

  // ---- against the policy rows ----

  // Missing policy rows read as the empty prefix.
  function Held(writes: seq<Write<string>>, tenant: string): string {
    if writes == [] then ""
    else if writes[|writes| - 1].tenant == tenant then writes[|writes| - 1].change
    else Held(writes[..|writes| - 1], tenant)
  }

  // The row holds what the tenant itself wrote last.
  lemma {:induction false} HeldIsLastOwn(writes: seq<Write<string>>, tenant: string, i: nat)
    requires i < |writes|
    ensures LastOwn(writes, tenant, i) ==> Held(writes, tenant) == writes[i].change
    ensures (forall w :: w in writes ==> w.tenant != tenant) ==> Held(writes, tenant) == ""
    decreases |writes|
  {
    var n := |writes| - 1;
    assert writes[n] in writes;
    if i < n {
      HeldIsLastOwn(writes[..n], tenant, i);
    } else if n > 0 {
      HeldIsLastOwn(writes[..n], tenant, n - 1);
    }
  }

  predicate LastOwn(writes: seq<Write<string>>, tenant: string, i: nat)
    requires i < |writes|
  {
    writes[i].tenant == tenant && forall j :: i < j < |writes| ==> writes[j].tenant != tenant
  }

  datatype Phase = Missed | Read(value: string, seen: Option<nat>)

  datatype Load = Load(tenant: string, started: int, phase: Phase)

  datatype Served = Served(tenant: string, value: string, seen: Option<nat>, at: int)

  // The cache of a state is the one that its stores left.
  datatype State = State(now: int, writes: seq<Write<string>>, stores: seq<Store>, loads: map<nat, Load>,
                         served: seq<Served>)

  // Looking up, reading the row and storing are steps of their own, and writes come between them.
  datatype Step = Tick(elapsed: nat)
                | Commit(tenant: string, value: string)
                | Lookup(load: nat, tenant: string)
                | ReadPolicy(load: nat, ok: bool)
                | Keep(load: nat)

  function Next(s: State, step: Step): State {
    match step
    case Tick(elapsed) => s.(now := s.now + elapsed)
    case Commit(tenant, value) => s.(writes := s.writes + [Write(tenant, value, s.now)])
    case Lookup(l, tenant) =>
      if l in s.loads then s
      else (
        match Hit(CacheAfter(s.stores), tenant, s.now)
        case Some(value) => s.(served := s.served + [Served(tenant, value, SeenBy(s.stores, tenant), s.now)])
        case None => s.(loads := s.loads[l := Load(tenant, s.now, Missed)]))
    case ReadPolicy(l, ok) =>
      if l in s.loads && s.loads[l].phase.Missed? then
        var phase := if ok then Read(Held(s.writes, s.loads[l].tenant), Some(|s.writes|)) else Read("", None);
        s.(loads := s.loads[l := s.loads[l].(phase := phase)])
      else s
    case Keep(l) =>
      if l in s.loads && s.loads[l].phase.Read? then
        var load := s.loads[l];
        s.(stores := s.stores + [Store(load.tenant, load.phase.value, s.now, load.phase.seen)], loads := s.loads - {l},
           served := s.served + [Served(load.tenant, load.phase.value, load.phase.seen, s.now)])
      else s
  }

  function SeenBy(stores: seq<Store>, tenant: string): Option<nat> {
    match Latest(stores, tenant) case Some(s) => s.seen case None => None
  }

  function Run(s: State, steps: seq<Step>): State
    decreases |steps|
  {
    if steps == [] then s else Run(Next(s, steps[0]), steps[1..])
  }

  // The value was in the tenant's own row at some instant of the interval, or its read failed.
  predicate HeldWithin(writes: seq<Write<string>>, tenant: string, value: string, seen: Option<nat>, from: int,
                       to: int) {
    match seen
    case None => value == ""
    case Some(i) => Moment(writes, i, from, to) && value == Held(writes[..i], tenant)
  }

  predicate LoadSound(s: State, l: Load) {
    l.started <= s.now
    && (l.phase.Read? ==> HeldWithin(s.writes, l.tenant, l.phase.value, l.phase.seen, l.started, s.now))
  }

  predicate StoreSound(s: State, x: Store, d: nat) {
    x.at <= s.now && HeldWithin(s.writes, x.tenant, x.value, x.seen, x.at - d, x.at)
  }

  predicate ServedSound(s: State, v: Served, d: nat) {
    v.at <= s.now && HeldWithin(s.writes, v.tenant, v.value, v.seen, v.at - TTL - d, v.at)
  }

  predicate Sound(s: State, d: nat) {
    && (forall i :: 0 <= i < |s.writes| ==> s.writes[i].at <= s.now)
    && (forall l :: l in s.loads ==> LoadSound(s, s.loads[l]))
    && (forall x :: x in s.stores ==> StoreSound(s, x, d))
    && (forall v :: v in s.served ==> ServedSound(s, v, d))
  }

  // No load takes longer than d from its lookup to its store.
  predicate InTime(s: State, step: Step, d: nat) {
    step.Keep? && step.load in s.loads ==> s.now - s.loads[step.load].started <= d
  }

  lemma HeldKept(writes: seq<Write<string>>, w: Write<string>, tenant: string, value: string, seen: Option<nat>,
                 from: int, to: int)
    requires HeldWithin(writes, tenant, value, seen, from, to) && from <= w.at
    ensures HeldWithin(writes + [w], tenant, value, seen, from, to)
  {
    if seen.Some? { MomentKept(writes, w, seen.value, from, to); }
  }

  lemma CommitSound(s: State, tenant: string, value: string, d: nat)
    requires Sound(s, d)
    ensures Sound(Next(s, Commit(tenant, value)), d)
  {
    var t, w := Next(s, Commit(tenant, value)), Write(tenant, value, s.now);
    forall l | l in t.loads ensures LoadSound(t, t.loads[l]) {
      var load := s.loads[l];
      assert LoadSound(s, load);
      if load.phase.Read? {
        HeldKept(s.writes, w, load.tenant, load.phase.value, load.phase.seen, load.started, s.now);
      }
    }
    forall x | x in t.stores ensures StoreSound(t, x, d) {
      assert StoreSound(s, x, d);
      HeldKept(s.writes, w, x.tenant, x.value, x.seen, x.at - d, x.at);
    }
    forall v | v in t.served ensures ServedSound(t, v, d) {
      assert ServedSound(s, v, d);
      HeldKept(s.writes, w, v.tenant, v.value, v.seen, v.at - TTL - d, v.at);
    }
  }

  lemma TickSound(s: State, elapsed: nat, d: nat)
    requires Sound(s, d)
    ensures Sound(Next(s, Tick(elapsed)), d)
  {
    var t := Next(s, Tick(elapsed));
    forall l | l in t.loads ensures LoadSound(t, t.loads[l]) { assert LoadSound(s, s.loads[l]); }
    forall x | x in t.stores ensures StoreSound(t, x, d) { assert StoreSound(s, x, d); }
    forall v | v in t.served ensures ServedSound(t, v, d) { assert ServedSound(s, v, d); }
  }

  lemma HitSound(s: State, tenant: string, d: nat)
    requires Sound(s, d) && Hit(CacheAfter(s.stores), tenant, s.now).Some?
    ensures ServedSound(s,
          Served(tenant, Hit(CacheAfter(s.stores), tenant, s.now).value, SeenBy(s.stores, tenant), s.now), d)
  {
    HitIsLatestStore(s.stores, tenant, s.now);
    assert StoreSound(s, Latest(s.stores, tenant).value, d);
  }

  lemma LookupSound(s: State, l: nat, tenant: string, d: nat)
    requires Sound(s, d)
    ensures Sound(Next(s, Lookup(l, tenant)), d)
  {
    var t := Next(s, Lookup(l, tenant));
    if Hit(CacheAfter(s.stores), tenant, s.now).Some? { HitSound(s, tenant, d); }
    forall m | m in t.loads ensures LoadSound(t, t.loads[m]) {
      if m in s.loads { assert LoadSound(s, s.loads[m]); }
    }
    forall x | x in t.stores ensures StoreSound(t, x, d) { assert StoreSound(s, x, d); }
    forall v | v in t.served ensures ServedSound(t, v, d) {
      if v in s.served { assert ServedSound(s, v, d); }
    }
  }

  lemma ReadSound(s: State, l: nat, ok: bool, d: nat)
    requires Sound(s, d)
    ensures Sound(Next(s, ReadPolicy(l, ok)), d)
  {
    var t := Next(s, ReadPolicy(l, ok));
    assert s.writes[..|s.writes|] == s.writes;
    forall m | m in t.loads ensures LoadSound(t, t.loads[m]) { assert LoadSound(s, s.loads[m]); }
    forall x | x in t.stores ensures StoreSound(t, x, d) { assert StoreSound(s, x, d); }
    forall v | v in t.served ensures ServedSound(t, v, d) { assert ServedSound(s, v, d); }
  }

  lemma KeepSound(s: State, l: nat, d: nat)
    requires Sound(s, d) && InTime(s, Keep(l), d)
    ensures Sound(Next(s, Keep(l)), d)
  {
    var t := Next(s, Keep(l));
    if l in s.loads { assert LoadSound(s, s.loads[l]); }
    forall m | m in t.loads ensures LoadSound(t, t.loads[m]) { assert LoadSound(s, s.loads[m]); }
    forall x | x in t.stores ensures StoreSound(t, x, d) {
      if x in s.stores { assert StoreSound(s, x, d); }
    }
    forall v | v in t.served ensures ServedSound(t, v, d) {
      if v in s.served { assert ServedSound(s, v, d); }
    }
  }

  predicate AllInTime(s: State, steps: seq<Step>, d: nat)
    decreases |steps|
  {
    steps != [] ==> InTime(s, steps[0], d) && AllInTime(Next(s, steps[0]), steps[1..], d)
  }

  lemma {:induction false} RunSound(s: State, steps: seq<Step>, d: nat)
    requires Sound(s, d) && AllInTime(s, steps, d)
    ensures Sound(Run(s, steps), d)
    decreases |steps|
  {
    if steps != [] {
      match steps[0] {
        case Tick(elapsed) => TickSound(s, elapsed, d);
        case Commit(tenant, value) => CommitSound(s, tenant, value, d);
        case Lookup(l, tenant) => LookupSound(s, l, tenant, d);
        case ReadPolicy(l, ok) => ReadSound(s, l, ok, d);
        case Keep(l) => KeepSound(s, l, d);
      }
      RunSound(Next(s, steps[0]), steps[1..], d);
    }
  }

  const QUIET := State(0, [], [], map[], [])

  // In every interleaving of lookups, reads, stores, resets and policy writes, each prefix served was
  // in that tenant's own policy row, or was the empty one of a failed read, at some instant within
  // the time to live plus one load before it was served.
  lemma ServedIsRecent(steps: seq<Step>, d: nat, v: Served)
    requires AllInTime(QUIET, steps, d) && v in Run(QUIET, steps).served
    ensures HeldWithin(Run(QUIET, steps).writes, v.tenant, v.value, v.seen, v.at - 60_000 - d, v.at)
  {
    RunSound(QUIET, steps, d);
    assert ServedSound(Run(QUIET, steps), v, d);
  }

  // A lookup that misses, with nothing in between: one prefix is served and stored, the row's, or the
  // empty one if the read fails.
  lemma LookupServes(s: State, l: nat, tenant: string, ok: bool, wait: nat)
    requires l !in s.loads && Hit(CacheAfter(s.stores), tenant, s.now) == None
    ensures var value := if ok then Held(s.writes, tenant) else "";
            var seen := if ok then Some(|s.writes|) else None;
            Next(Next(Next(Next(s, Lookup(l, tenant)), ReadPolicy(l, ok)), Tick(wait)), Keep(l))
            == s.(now := s.now + wait, stores := s.stores + [Store(tenant, value, s.now + wait, seen)],
                  served := s.served + [Served(tenant, value, seen, s.now + wait)])
  {
    var value := if ok then Held(s.writes, tenant) else "";
    var seen := if ok then Some(|s.writes|) else None;
    var s1 := Next(s, Lookup(l, tenant));
    assert s1 == s.(loads := s.loads[l := Load(tenant, s.now, Missed)]);
    var s2 := Next(s1, ReadPolicy(l, ok));
    assert s2 == s.(loads := s.loads[l := Load(tenant, s.now, Read(value, seen))]);
    var s3 := Next(s2, Tick(wait));
    assert s3 == s2.(now := s.now + wait);
    assert s3.loads - {l} == s.loads;
  }

  // A policy that is written, and then asked for with no entry in the way, is served, and for the time
  // to live whoever asks for that tenant gets it.
  lemma WrittenIsServed(s: State, l: nat, tenant: string, text: string, wait: nat, later: int)
    requires l !in s.loads && Hit(CacheAfter(s.stores), tenant, s.now) == None
    ensures var s1 := Next(s, Commit(tenant, text));
            var t := Next(Next(Next(Next(s1, Lookup(l, tenant)), ReadPolicy(l, true)), Tick(wait)), Keep(l));
            && t.served == s.served + [Served(tenant, text, Some(|s.writes| + 1), s.now + wait)]
            && (Hit(CacheAfter(t.stores), tenant, later) == Some(text) <==> later < s.now + wait + 60_000)
  {
    var s1 := Next(s, Commit(tenant, text));
    HeldIsLastOwn(s1.writes, tenant, |s.writes|);
    LookupServes(s1, l, tenant, true, wait);
    var stores := s.stores + [Store(tenant, text, s.now + wait, Some(|s.writes| + 1))];
    assert stores[..|s.stores|] == s.stores;
  }

  // ---- the code ----

  class Provider {
    var cache: Cache
    ghost var stores: seq<Store>

    ghost predicate Valid()
      reads this
    {
      cache == CacheAfter(stores)
    }

    constructor ()
      ensures Valid() && stores == []
    {
      cache := map[];
      stores := [];
    }

    method StoreValue(tenant: string, value: string, now: int, ghost seen: Option<nat>)
      requires Valid()
      modifies this
      ensures Valid() && stores == old(stores) + [Store(tenant, value, now, seen)]
      ensures cache == Stored(old(cache), tenant, value, now) && |cache| <= MAX_ENTRIES
    {
      if |cache| >= MAX_ENTRIES {
        cache := map[];
      }
      cache := cache[tenant := Entry(value, now + TTL)];
      stores := stores + [Store(tenant, value, now, seen)];
      assert stores[..|stores| - 1] == old(stores);
      NeverOverfull(stores);
    }

    // `rows` are the policy rows at the moment of the read, which may fail.  The clock is read once to
    // look up and once to store.
    method PromptPrefix(context: string, rows: map<string, string>, readFails: bool, now: int, storedAt: int,
                        ghost writesSeen: nat)
      returns (value: string)
      requires Valid()
      modifies this
      ensures Valid()
      ensures var tenant := if context == "" then "00000000-0000-0000-0000-000000000001" else context;
              match Hit(old(cache), tenant, now)
              case Some(v) => value == v && cache == old(cache) && stores == old(stores)
              case None =>
                && value == (if readFails || tenant !in rows then "" else rows[tenant])
                && stores
                    == old(stores) + [Store(tenant, value, storedAt, if readFails then None else Some(writesSeen))]
    {
      var tenant := if context == "" then SENTINEL else context;
      if tenant in cache && now < cache[tenant].expiresAt {
        return cache[tenant].value;
      }
      if readFails || tenant !in rows {
        value := "";
      } else {
        value := rows[tenant];
      }
      StoreValue(tenant, value, storedAt, if readFails then None else Some(writesSeen));
    }
  }
}
