// Per-tenant configuration behind a cache: look up, load in two reads, store, each a step of its
// own, against writes and invalidations.  What is served lags the stored rows by a bounded time.
module ByokCache {
  import opened Prelude
  import opened Timeline

  // In milliseconds.
  const TTL: int := 30_000

  datatype Config = Config(enabled: bool, providers: seq<string>)

  // ---- the stored rows ----

  // Two settings rows per tenant, each written on its own.
  datatype Change = SetEnabled(enabled: bool) | SetProviders(providers: seq<string>)

  // What a tenant's rows hold after the writes; a row never written stands for the fallback.
  function Held(writes: seq<Write<Change>>, tenant: string, fallback: Config): Config {
    if writes == [] then fallback
    else
      var before, w := Held(writes[..|writes| - 1], tenant, fallback), writes[|writes| - 1];
      if w.tenant != tenant then before
      else
        match w.change
        case SetEnabled(e) => before.(enabled := e)
        case SetProviders(p) => before.(providers := p)
  }

  // The rows hold the last change of each field that the tenant itself wrote.
  lemma {:induction false} HeldIsLastOwn(writes: seq<Write<Change>>, tenant: string, fallback: Config)
    ensures var held := Held(writes, tenant, fallback);
            && (forall i :: 0 <= i < |writes| && LastSwitch(writes, tenant, i) ==>
                  held.enabled == writes[i].change.enabled)
            && (forall i :: 0 <= i < |writes| && LastList(writes, tenant, i) ==>
                  held.providers == writes[i].change.providers)
            && ((forall w :: w in writes && w.tenant == tenant ==> w.change.SetProviders?) ==>
                  held.enabled == fallback.enabled)
            && ((forall w :: w in writes && w.tenant == tenant ==> w.change.SetEnabled?) ==>
                  held.providers == fallback.providers)
    decreases |writes|
  {
    if writes != [] {
      var n := |writes| - 1;
      var before := writes[..n];
      HeldIsLastOwn(before, tenant, fallback);
      assert writes == before + [writes[n]];
      forall i | 0 <= i < n && LastSwitch(writes, tenant, i) ensures LastSwitch(before, tenant, i) {}
      forall i | 0 <= i < n && LastList(writes, tenant, i) ensures LastList(before, tenant, i) {}
    }
  }

  // Position i is the tenant's own last change of the switch, or of the list.
  predicate LastSwitch(writes: seq<Write<Change>>, tenant: string, i: nat)
    requires i < |writes|
  {
    && writes[i].tenant == tenant && writes[i].change.SetEnabled?
    && forall j :: i < j < |writes| && writes[j].tenant == tenant ==> writes[j].change.SetProviders?
  }

  predicate LastList(writes: seq<Write<Change>>, tenant: string, i: nat)
    requires i < |writes|
  {
    && writes[i].tenant == tenant && writes[i].change.SetProviders?
    && forall j :: i < j < |writes| && writes[j].tenant == tenant ==> writes[j].change.SetEnabled?
  }

  // ---- the cache and its users ----

  // A configuration with the number of writes each field's read had seen; none if the read failed
  // and the fallback was used.
  datatype Reading = Reading(cfg: Config, enabledAt: Option<nat>, providersAt: Option<nat>)

  datatype Cached = Cached(reading: Reading, at: int)

  datatype Phase = Missed | ReadFirst(enabled: bool, enabledAt: Option<nat>) | ReadBoth(reading: Reading)

  datatype Load = Load(tenant: string, started: int, phase: Phase)

  datatype Served = Served(tenant: string, reading: Reading, at: int)

  datatype State = State(now: int, writes: seq<Write<Change>>, cache: map<string, Cached>,
                         loads: map<nat, Load>, served: seq<Served>)

  datatype Step = Tick(elapsed: nat)
                | Commit(tenant: string, change: Change)
                | Invalidate(tenant: string)
                | Resolve(load: nat, tenant: string)
                | ReadEnabled(load: nat, ok: bool)
                | ReadProviders(load: nat, ok: bool)
                | Store(load: nat)

  predicate Fresh(entry: Cached, now: int) { now - entry.at < TTL }

  function Next(s: State, step: Step, fallback: Config): State {
    match step
    case Tick(elapsed) => s.(now := s.now + elapsed)
    case Commit(tenant, change) => s.(writes := s.writes + [Write(tenant, change, s.now)])
    case Invalidate(tenant) => s.(cache := s.cache - {tenant})
    case Resolve(l, tenant) =>
      if l in s.loads then s
      else if tenant in s.cache && Fresh(s.cache[tenant], s.now) then
        s.(served := s.served + [Served(tenant, s.cache[tenant].reading, s.now)])
      else s.(loads := s.loads[l := Load(tenant, s.now, Missed)])
    case ReadEnabled(l, ok) =>
      if l in s.loads && s.loads[l].phase.Missed? then
        var held := Held(s.writes, s.loads[l].tenant, fallback);
        var phase := if ok then ReadFirst(held.enabled, Some(|s.writes|)) else ReadFirst(fallback.enabled, None);
        s.(loads := s.loads[l := s.loads[l].(phase := phase)])
      else s
    case ReadProviders(l, ok) =>
      if l in s.loads && s.loads[l].phase.ReadFirst? then
        var held, first := Held(s.writes, s.loads[l].tenant, fallback), s.loads[l].phase;
        var reading := if ok then Reading(Config(first.enabled, held.providers), first.enabledAt, Some(|s.writes|))
                       else Reading(Config(first.enabled, fallback.providers), first.enabledAt, None);
        s.(loads := s.loads[l := s.loads[l].(phase := ReadBoth(reading))])
      else s
    case Store(l) =>
      if l in s.loads && s.loads[l].phase.ReadBoth? then
        var load := s.loads[l];
        s.(cache := s.cache[load.tenant := Cached(load.phase.reading, s.now)], loads := s.loads - {l},
           served := s.served + [Served(load.tenant, load.phase.reading, s.now)])
      else s
  }

  function Run(s: State, steps: seq<Step>, fallback: Config): State
    decreases |steps|
  {
    if steps == [] then s else Run(Next(s, steps[0], fallback), steps[1..], fallback)
  }

  // ---- bounded staleness ----

  predicate EnabledHeld(writes: seq<Write<Change>>, tenant: string, enabled: bool, seen: Option<nat>,
                        from: int, to: int, fallback: Config) {
    match seen
    case None => enabled == fallback.enabled
    case Some(i) => Moment(writes, i, from, to) && enabled == Held(writes[..i], tenant, fallback).enabled
  }

  predicate ProvidersHeld(writes: seq<Write<Change>>, tenant: string, providers: seq<string>, seen: Option<nat>,
                          from: int, to: int, fallback: Config) {
    match seen
    case None => providers == fallback.providers
    case Some(i) => Moment(writes, i, from, to) && providers == Held(writes[..i], tenant, fallback).providers
  }

  // Each field was in the tenant's own row at some instant of the interval, the switch first.
  predicate ReadWithin(writes: seq<Write<Change>>, tenant: string, r: Reading, from: int, to: int, fallback: Config) {
    && EnabledHeld(writes, tenant, r.cfg.enabled, r.enabledAt, from, to, fallback)
    && ProvidersHeld(writes, tenant, r.cfg.providers, r.providersAt, from, to, fallback)
    && (r.enabledAt.Some? && r.providersAt.Some? ==> r.enabledAt.value <= r.providersAt.value)
  }

  predicate WritesOrdered(s: State) {
    forall i :: 0 <= i < |s.writes| ==> s.writes[i].at <= s.now
  }

  predicate LoadSound(s: State, l: nat, fallback: Config)
    requires l in s.loads
  {
    var load := s.loads[l];
    load.started <= s.now &&
    match load.phase
    case Missed => true
    case ReadFirst(enabled, seen) => EnabledHeld(s.writes, load.tenant, enabled, seen, load.started, s.now, fallback)
    case ReadBoth(reading) => ReadWithin(s.writes, load.tenant, reading, load.started, s.now, fallback)
  }

  predicate EntrySound(s: State, tenant: string, d: nat, fallback: Config)
    requires tenant in s.cache
  {
    var e := s.cache[tenant];
    e.at <= s.now && ReadWithin(s.writes, tenant, e.reading, e.at - d, e.at, fallback)
  }

  predicate ServedSound(s: State, v: Served, d: nat, fallback: Config) {
    v.at <= s.now && ReadWithin(s.writes, v.tenant, v.reading, v.at - TTL - d, v.at, fallback)
  }

  predicate Sound(s: State, d: nat, fallback: Config) {
    && WritesOrdered(s)
    && (forall l :: l in s.loads ==> LoadSound(s, l, fallback))
    && (forall tenant :: tenant in s.cache ==> EntrySound(s, tenant, d, fallback))
    && (forall v :: v in s.served ==> ServedSound(s, v, d, fallback))
  }

  // No load takes longer than d from its start to its store.
  predicate InTime(s: State, step: Step, d: nat) {
    step.Store? && step.load in s.loads ==> s.now - s.loads[step.load].started <= d
  }

  lemma Widen(writes: seq<Write<Change>>, tenant: string, r: Reading, from: int, to: int, from': int, to': int,
              fallback: Config)
    requires ReadWithin(writes, tenant, r, from, to, fallback) && from' <= from && to <= to'
    ensures ReadWithin(writes, tenant, r, from', to', fallback)
  {
  }

  lemma ReadingKept(writes: seq<Write<Change>>, w: Write<Change>, tenant: string, r: Reading, from: int, to: int,
                    fallback: Config)
    requires ReadWithin(writes, tenant, r, from, to, fallback) && from <= w.at
    ensures ReadWithin(writes + [w], tenant, r, from, to, fallback)
  {
    if r.enabledAt.Some? { MomentKept(writes, w, r.enabledAt.value, from, to); }
    if r.providersAt.Some? { MomentKept(writes, w, r.providersAt.value, from, to); }
  }

  lemma LoadKept(s: State, w: Write<Change>, l: nat, fallback: Config)
    requires l in s.loads && LoadSound(s, l, fallback) && w.at == s.now
    ensures LoadSound(s.(writes := s.writes + [w]), l, fallback)
  {
    var load := s.loads[l];
    match load.phase
    case Missed =>
    case ReadFirst(enabled, seen) =>
      if seen.Some? { MomentKept(s.writes, w, seen.value, load.started, s.now); }
    case ReadBoth(reading) => ReadingKept(s.writes, w, load.tenant, reading, load.started, s.now, fallback);
  }

  lemma EntryKept(s: State, w: Write<Change>, k: string, d: nat, fallback: Config)
    requires k in s.cache && EntrySound(s, k, d, fallback) && w.at == s.now
    ensures EntrySound(s.(writes := s.writes + [w]), k, d, fallback)
  {
    ReadingKept(s.writes, w, k, s.cache[k].reading, s.cache[k].at - d, s.cache[k].at, fallback);
  }

  lemma ServedKept(s: State, w: Write<Change>, v: Served, d: nat, fallback: Config)
    requires ServedSound(s, v, d, fallback) && w.at == s.now
    ensures ServedSound(s.(writes := s.writes + [w]), v, d, fallback)
  {
    ReadingKept(s.writes, w, v.tenant, v.reading, v.at - TTL - d, v.at, fallback);
  }

  lemma CommitSound(s: State, tenant: string, change: Change, d: nat, fallback: Config)
    requires Sound(s, d, fallback)
    ensures Sound(Next(s, Commit(tenant, change), fallback), d, fallback)
  {
    var t, w := Next(s, Commit(tenant, change), fallback), Write(tenant, change, s.now);
    forall l | l in t.loads ensures LoadSound(t, l, fallback) { LoadKept(s, w, l, fallback); }
    forall k | k in t.cache ensures EntrySound(t, k, d, fallback) { EntryKept(s, w, k, d, fallback); }
    forall v | v in t.served ensures ServedSound(t, v, d, fallback) { ServedKept(s, w, v, d, fallback); }
  }

  lemma TickSound(s: State, elapsed: nat, d: nat, fallback: Config)
    requires Sound(s, d, fallback)
    ensures Sound(Next(s, Tick(elapsed), fallback), d, fallback)
  {
    var t := Next(s, Tick(elapsed), fallback);
    forall l | l in t.loads ensures LoadSound(t, l, fallback) {
      var load := s.loads[l];
      assert LoadSound(s, l, fallback);
      if load.phase.ReadBoth? {
        Widen(s.writes, load.tenant, load.phase.reading, load.started, s.now, load.started, t.now, fallback);
      }
    }
    forall k | k in t.cache ensures EntrySound(t, k, d, fallback) { assert EntrySound(s, k, d, fallback); }
    forall v | v in t.served ensures ServedSound(t, v, d, fallback) { assert ServedSound(s, v, d, fallback); }
  }

  // What the rows hold now is a moment of any interval that ends now.
  lemma NowIsAMoment(s: State, from: int)
    requires WritesOrdered(s)
    ensures Moment(s.writes, |s.writes|, from, s.now) && s.writes[..|s.writes|] == s.writes
  {
  }

  lemma ReadSound(s: State, step: Step, d: nat, fallback: Config)
    requires Sound(s, d, fallback) && (step.ReadEnabled? || step.ReadProviders?)
    ensures Sound(Next(s, step, fallback), d, fallback)
  {
    var t := Next(s, step, fallback);
    forall l | l in t.loads ensures LoadSound(t, l, fallback) {
      assert LoadSound(s, l, fallback);
      NowIsAMoment(s, s.loads[l].started);
    }
    forall k | k in t.cache ensures EntrySound(t, k, d, fallback) { assert EntrySound(s, k, d, fallback); }
    forall v | v in t.served ensures ServedSound(t, v, d, fallback) { assert ServedSound(s, v, d, fallback); }
  }

  lemma HitSound(s: State, tenant: string, d: nat, fallback: Config)
    requires tenant in s.cache && EntrySound(s, tenant, d, fallback) && Fresh(s.cache[tenant], s.now)
    ensures ServedSound(s, Served(tenant, s.cache[tenant].reading, s.now), d, fallback)
  {
    var e := s.cache[tenant];
    Widen(s.writes, tenant, e.reading, e.at - d, e.at, s.now - TTL - d, s.now, fallback);
  }

  lemma ServeSound(s: State, v: Served, d: nat, fallback: Config)
    requires Sound(s, d, fallback) && ServedSound(s, v, d, fallback)
    ensures Sound(s.(served := s.served + [v]), d, fallback)
  {
    var t := s.(served := s.served + [v]);
    forall m | m in t.loads ensures LoadSound(t, m, fallback) { assert LoadSound(s, m, fallback); }
    forall k | k in t.cache ensures EntrySound(t, k, d, fallback) { assert EntrySound(s, k, d, fallback); }
    forall x | x in t.served ensures ServedSound(t, x, d, fallback) {
      if x in s.served { assert ServedSound(s, x, d, fallback); }
    }
  }

  lemma StartSound(s: State, l: nat, tenant: string, d: nat, fallback: Config)
    requires Sound(s, d, fallback) && l !in s.loads
    ensures Sound(s.(loads := s.loads[l := Load(tenant, s.now, Missed)]), d, fallback)
  {
    var t := s.(loads := s.loads[l := Load(tenant, s.now, Missed)]);
    forall m | m in t.loads ensures LoadSound(t, m, fallback) {
      if m in s.loads { assert LoadSound(s, m, fallback); }
    }
    forall k | k in t.cache ensures EntrySound(t, k, d, fallback) { assert EntrySound(s, k, d, fallback); }
    forall x | x in t.served ensures ServedSound(t, x, d, fallback) { assert ServedSound(s, x, d, fallback); }
  }

  lemma ResolveSound(s: State, l: nat, tenant: string, d: nat, fallback: Config)
    requires Sound(s, d, fallback)
    ensures Sound(Next(s, Resolve(l, tenant), fallback), d, fallback)
  {
    if l !in s.loads {
      if tenant in s.cache && Fresh(s.cache[tenant], s.now) {
        HitSound(s, tenant, d, fallback);
        ServeSound(s, Served(tenant, s.cache[tenant].reading, s.now), d, fallback);
      } else {
        StartSound(s, l, tenant, d, fallback);
      }
    }
  }

  lemma InvalidateSound(s: State, tenant: string, d: nat, fallback: Config)
    requires Sound(s, d, fallback)
    ensures Sound(Next(s, Invalidate(tenant), fallback), d, fallback)
  {
    var t := Next(s, Invalidate(tenant), fallback);
    forall l | l in t.loads ensures LoadSound(t, l, fallback) { assert LoadSound(s, l, fallback); }
    forall k | k in t.cache ensures EntrySound(t, k, d, fallback) { assert EntrySound(s, k, d, fallback); }
    forall v | v in t.served ensures ServedSound(t, v, d, fallback) { assert ServedSound(s, v, d, fallback); }
  }

  lemma StoredSound(s: State, l: nat, d: nat, fallback: Config)
    requires l in s.loads && s.loads[l].phase.ReadBoth? && LoadSound(s, l, fallback) && InTime(s, Store(l), d)
    ensures var t, load := Next(s, Store(l), fallback), s.loads[l];
            && load.tenant in t.cache && EntrySound(t, load.tenant, d, fallback)
            && ServedSound(t, Served(load.tenant, load.phase.reading, s.now), d, fallback)
  {
    var load := s.loads[l];
    Widen(s.writes, load.tenant, load.phase.reading, load.started, s.now, s.now - d, s.now, fallback);
    Widen(s.writes, load.tenant, load.phase.reading, load.started, s.now, s.now - TTL - d, s.now, fallback);
  }

  lemma StoreSound(s: State, l: nat, d: nat, fallback: Config)
    requires Sound(s, d, fallback) && InTime(s, Store(l), d)
    ensures Sound(Next(s, Store(l), fallback), d, fallback)
  {
    var t := Next(s, Store(l), fallback);
    if l in s.loads && s.loads[l].phase.ReadBoth? {
      var load := s.loads[l];
      StoredSound(s, l, d, fallback);
      forall m | m in t.loads ensures LoadSound(t, m, fallback) { assert LoadSound(s, m, fallback); }
      forall k | k in t.cache ensures EntrySound(t, k, d, fallback) {
        if k != load.tenant { assert EntrySound(s, k, d, fallback); }
      }
      forall v | v in t.served ensures ServedSound(t, v, d, fallback) {
        if v in s.served { assert ServedSound(s, v, d, fallback); }
      }
    }
  }

  predicate AllInTime(s: State, steps: seq<Step>, d: nat, fallback: Config)
    decreases |steps|
  {
    steps != [] ==> InTime(s, steps[0], d) && AllInTime(Next(s, steps[0], fallback), steps[1..], d, fallback)
  }

  lemma {:induction false} RunSound(s: State, steps: seq<Step>, d: nat, fallback: Config)
    requires Sound(s, d, fallback) && AllInTime(s, steps, d, fallback)
    ensures Sound(Run(s, steps, fallback), d, fallback)
    decreases |steps|
  {
    if steps != [] {
      match steps[0] {
        case Tick(elapsed) => TickSound(s, elapsed, d, fallback);
        case Commit(tenant, change) => CommitSound(s, tenant, change, d, fallback);
        case Invalidate(tenant) => InvalidateSound(s, tenant, d, fallback);
        case Resolve(l, tenant) => ResolveSound(s, l, tenant, d, fallback);
        case ReadEnabled(_, _) => ReadSound(s, steps[0], d, fallback);
        case ReadProviders(_, _) => ReadSound(s, steps[0], d, fallback);
        case Store(l) => StoreSound(s, l, d, fallback);
      }
      RunSound(Next(s, steps[0], fallback), steps[1..], d, fallback);
    }
  }

  const QUIET := State(0, [], map[], map[], [])

  // In every interleaving, each field ever served was in that tenant's own row (or was the fallback
  // for a failed read) at some instant within the time to live plus one load before it was served.
  lemma ServedIsRecent(steps: seq<Step>, d: nat, fallback: Config, v: Served)
    requires AllInTime(QUIET, steps, d, fallback) && v in Run(QUIET, steps, fallback).served
    ensures ReadWithin(Run(QUIET, steps, fallback).writes, v.tenant, v.reading, v.at - 30_000 - d, v.at, fallback)
  {
    RunSound(QUIET, steps, d, fallback);
    assert ServedSound(Run(QUIET, steps, fallback), v, d, fallback);
  }

  // ---- the two fields together ----

  predicate SetsEnabled(w: Write<Change>, tenant: string) { w.tenant == tenant && w.change.SetEnabled? }

  predicate SetsProviders(w: Write<Change>, tenant: string) { w.tenant == tenant && w.change.SetProviders? }

  // Between the two reads every change of the list comes before every change of the switch.
  predicate ListsFirst(writes: seq<Write<Change>>, tenant: string, i: nat, j: nat) {
    forall p, q :: i <= p < q < j <= |writes| && SetsEnabled(writes[p], tenant) ==> !SetsProviders(writes[q], tenant)
  }

  // The configuration that the two reads put together, and whether the rows ever held it between
  // the reads.
  function ReadPair(writes: seq<Write<Change>>, tenant: string, i: nat, j: nat, fallback: Config): Config
    requires i <= j <= |writes|
  {
    Config(Held(writes[..i], tenant, fallback).enabled, Held(writes[..j], tenant, fallback).providers)
  }

  predicate HeldBetween(writes: seq<Write<Change>>, tenant: string, i: nat, j: nat, fallback: Config)
    requires i <= j <= |writes|
  {
    exists m: nat :: i <= m <= j && Held(writes[..m], tenant, fallback) == ReadPair(writes, tenant, i, j, fallback)
  }

  lemma {:induction false} EnabledKept(writes: seq<Write<Change>>, tenant: string, i: nat, j: nat, fallback: Config)
    requires i <= j <= |writes| && forall k :: i <= k < j ==> !SetsEnabled(writes[k], tenant)
    ensures Held(writes[..i], tenant, fallback).enabled == Held(writes[..j], tenant, fallback).enabled
    decreases j - i
  {
    if i < j {
      EnabledKept(writes, tenant, i, j - 1, fallback);
      assert writes[..j][..j - 1] == writes[..j - 1];
    }
  }

  lemma {:induction false} ProvidersKept(writes: seq<Write<Change>>, tenant: string, i: nat, j: nat, fallback: Config)
    requires i <= j <= |writes| && forall k :: i <= k < j ==> !SetsProviders(writes[k], tenant)
    ensures Held(writes[..i], tenant, fallback).providers == Held(writes[..j], tenant, fallback).providers
    decreases j - i
  {
    if i < j {
      ProvidersKept(writes, tenant, i, j - 1, fallback);
      assert writes[..j][..j - 1] == writes[..j - 1];
    }
  }

  lemma ListsFirstHeld(writes: seq<Write<Change>>, tenant: string, i: nat, j: nat, fallback: Config)
    requires i <= j <= |writes| && ListsFirst(writes, tenant, i, j)
    ensures HeldBetween(writes, tenant, i, j, fallback)
  {
    var m := FirstEnabled(writes, tenant, i, j);
    EnabledKept(writes, tenant, i, m, fallback);
    ProvidersKept(writes, tenant, m, j, fallback);
  }

  function FirstEnabled(writes: seq<Write<Change>>, tenant: string, i: nat, j: nat): (m: nat)
    requires i <= j <= |writes|
    ensures i <= m <= j && forall k :: i <= k < m ==> !SetsEnabled(writes[k], tenant)
    ensures m < j ==> SetsEnabled(writes[m], tenant)
    decreases j - i
  {
    if i == j || SetsEnabled(writes[i], tenant) then i else FirstEnabled(writes, tenant, i + 1, j)
  }

  // The same writes, at the same times, of the same fields, with other values.
  predicate SameShape(a: seq<Write<Change>>, b: seq<Write<Change>>) {
    |a| == |b| && forall k :: 0 <= k < |a| ==>
      a[k].tenant == b[k].tenant && a[k].at == b[k].at && (a[k].change.SetEnabled? <==> b[k].change.SetEnabled?)
  }

  // Values that show a tear: the switch is on until write i, the list empty until write q.
  function Telling(writes: seq<Write<Change>>, i: nat, q: nat): (told: seq<Write<Change>>)
    ensures SameShape(writes, told)
  {
    seq(|writes|, k requires 0 <= k < |writes| =>
      Write(writes[k].tenant,
            if writes[k].change.SetEnabled? then SetEnabled(k < i) else SetProviders(if k < q then [] else ["x"]),
            writes[k].at))
  }

  lemma {:induction false} TellingHeld(writes: seq<Write<Change>>, tenant: string, i: nat, q: nat, m: nat)
    requires m <= |writes|
    ensures var held := Held(Telling(writes, i, q)[..m], tenant, Config(true, []));
            && (held.enabled <==> forall k :: i <= k < m ==> !SetsEnabled(writes[k], tenant))
            && held.providers == if exists k :: q <= k < m && SetsProviders(writes[k], tenant) then ["x"] else []
    decreases m
  {
    var told := Telling(writes, i, q);
    if m > 0 {
      TellingHeld(writes, tenant, i, q, m - 1);
      assert told[..m][..m - 1] == told[..m - 1];
    }
  }

  lemma TornByValues(writes: seq<Write<Change>>, tenant: string, i: nat, j: nat, p: nat, q: nat)
    requires i <= p < q < j <= |writes| && SetsEnabled(writes[p], tenant) && SetsProviders(writes[q], tenant)
    ensures !HeldBetween(Telling(writes, i, q), tenant, i, j, Config(true, []))
  {
    var told, fallback := Telling(writes, i, q), Config(true, []);
    TellingHeld(writes, tenant, i, q, i);
    TellingHeld(writes, tenant, i, q, j);
    forall m: nat | i <= m <= j ensures Held(told[..m], tenant, fallback) != ReadPair(told, tenant, i, j, fallback) {
      TellingHeld(writes, tenant, i, q, m);
    }
  }

  // The order of the writes between the two reads guarantees a pair that was held, whatever the
  // written values, exactly if all changes of the list come before all changes of the switch.
  lemma PairHeldExactly(writes: seq<Write<Change>>, tenant: string, i: nat, j: nat)
    requires i <= j <= |writes|
    ensures (forall told: seq<Write<Change>>, fallback: Config ::
               SameShape(writes, told) ==> HeldBetween(told, tenant, i, j, fallback))
       <==> ListsFirst(writes, tenant, i, j)
  {
    if ListsFirst(writes, tenant, i, j) {
      forall told: seq<Write<Change>>, fallback: Config | SameShape(writes, told)
        ensures HeldBetween(told, tenant, i, j, fallback)
      {
        forall p, q | i <= p < q < j && SetsEnabled(told[p], tenant) ensures !SetsProviders(told[q], tenant) {
          assert SetsEnabled(writes[p], tenant);
          assert !SetsProviders(writes[q], tenant);
        }
        ListsFirstHeld(told, tenant, i, j, fallback);
      }
    } else {
      var p, q :| i <= p < q < j && SetsEnabled(writes[p], tenant) && SetsProviders(writes[q], tenant);
      TornByValues(writes, tenant, i, j, p, q);
    }
  }

  lemma {:induction false} WritesStayChronological(s: State, steps: seq<Step>, fallback: Config)
    requires WritesOrdered(s) && Chronological(s.writes)
    ensures Chronological(Run(s, steps, fallback).writes)
    decreases |steps|
  {
    if steps != [] { WritesStayChronological(Next(s, steps[0], fallback), steps[1..], fallback); }
  }

  // A pair put together around such writes was in the rows at an instant of the load.
  lemma UntornPair(writes: seq<Write<Change>>, tenant: string, r: Reading, from: int, to: int, i: nat, j: nat,
                   fallback: Config)
    requires ReadWithin(writes, tenant, r, from, to, fallback) && Chronological(writes)
    requires r.enabledAt == Some(i) && r.providersAt == Some(j) && ListsFirst(writes, tenant, i, j)
    ensures exists m: nat :: Moment(writes, m, from, to) && r.cfg == Held(writes[..m], tenant, fallback)
  {
    ListsFirstHeld(writes, tenant, i, j, fallback);
    var m: nat :| i <= m <= j && Held(writes[..m], tenant, fallback) == ReadPair(writes, tenant, i, j, fallback);
    assert Moment(writes, m, from, to);
  }

  lemma ServedPairHeld(steps: seq<Step>, d: nat, fallback: Config, v: Served, i: nat, j: nat)
    requires AllInTime(QUIET, steps, d, fallback) && v in Run(QUIET, steps, fallback).served
    requires v.reading.enabledAt == Some(i) && v.reading.providersAt == Some(j)
    requires ListsFirst(Run(QUIET, steps, fallback).writes, v.tenant, i, j)
    ensures exists m: nat :: Moment(Run(QUIET, steps, fallback).writes, m, v.at - 30_000 - d, v.at)
                          && v.reading.cfg == Held(Run(QUIET, steps, fallback).writes[..m], v.tenant, fallback)
  {
    ServedIsRecent(steps, d, fallback, v);
    WritesStayChronological(QUIET, steps, fallback);
    UntornPair(Run(QUIET, steps, fallback).writes, v.tenant, v.reading, v.at - TTL - d, v.at, i, j, fallback);
  }

  lemma HeldAfter(writes: seq<Write<Change>>, w: Write<Change>, tenant: string, fallback: Config)
    ensures Held(writes + [w], tenant, fallback)
         == var before := Held(writes, tenant, fallback);
            if w.tenant != tenant then before
            else
              match w.change
              case SetEnabled(e) => before.(enabled := e)
              case SetProviders(p) => before.(providers := p)
  {
    assert (writes + [w])[..|writes|] == writes;
  }

  lemma HeldAlongTwoWrites(tenant: string, p: seq<string>, at: int, i: nat)
    requires i <= 2
    ensures var writes := [Write(tenant, SetEnabled(false), at), Write(tenant, SetProviders(p), at)];
            Held(writes[..i], tenant, Config(true, []))
            == if i == 0 then Config(true, []) else if i == 1 then Config(false, []) else Config(false, p)
  {
    var fallback := Config(true, []);
    var off, list := Write(tenant, SetEnabled(false), at), Write(tenant, SetProviders(p), at);
    HeldAfter([], off, tenant, fallback);
    HeldAfter([off], list, tenant, fallback);
    assert [] + [off] == [off] && [off] + [list] == [off, list];
    assert [off, list][..0] == [] && [off, list][..1] == [off] && [off, list][..2] == [off, list];
  }

  // The load of a torn pair, from after its first read.
  lemma TornLoad(s: State, l: nat, p: seq<string>, fallback: Config)
    requires l in s.loads && s.loads[l].phase.ReadFirst? && s.served == []
    ensures var load := s.loads[l];
            var t := Next(Next(Next(Next(s, Commit(load.tenant, SetEnabled(false)), fallback),
                                    Commit(load.tenant, SetProviders(p)), fallback),
                               ReadProviders(l, true), fallback),
                          Store(l), fallback);
            && t.writes ==
               s.writes + [Write(load.tenant, SetEnabled(false), s.now), Write(load.tenant, SetProviders(p), s.now)]
            && |t.served| == 1 && t.served[0].reading.cfg == Config(load.phase.enabled, p)
  {
    var load := s.loads[l];
    var off, list := Write(load.tenant, SetEnabled(false), s.now), Write(load.tenant, SetProviders(p), s.now);
    HeldAfter(s.writes + [off], list, load.tenant, fallback);
    assert s.writes + [off] + [list] == s.writes + [off, list];
  }

  // Otherwise it may never have been: a load around two writes pairs the old switch with the new list.
  lemma PairCanBeTorn(tenant: string, p: seq<string>)
    requires p != []
    ensures var fallback := Config(true, []);
            var s := Run(QUIET, [Resolve(0, tenant), ReadEnabled(0, true), Commit(tenant, SetEnabled(false)),
                                 Commit(tenant, SetProviders(p)), ReadProviders(0, true), Store(0)], fallback);
            && |s.served| == 1 && s.served[0].reading.cfg == Config(true, p)
            && forall i :: 0 <= i <= |s.writes| ==> Held(s.writes[..i], tenant, fallback) != Config(true, p)
  {
    var fallback := Config(true, []);
    RunSix(QUIET, Resolve(0, tenant), ReadEnabled(0, true), Commit(tenant, SetEnabled(false)),
           Commit(tenant, SetProviders(p)), ReadProviders(0, true), Store(0), fallback);
    var reading := Next(Next(QUIET, Resolve(0, tenant), fallback), ReadEnabled(0, true), fallback);
    assert reading.loads[0] == Load(tenant, 0, ReadFirst(true, Some(0)));
    TornLoad(reading, 0, p, fallback);
    var writes := [Write(tenant, SetEnabled(false), 0), Write(tenant, SetProviders(p), 0)];
    assert [] + writes == writes;
    forall i: nat | i <= 2 ensures Held(writes[..i], tenant, fallback) != Config(true, p) {
      HeldAlongTwoWrites(tenant, p, 0, i);
    }
  }

  lemma RunCons(s: State, step: Step, rest: seq<Step>, fallback: Config)
    ensures Run(s, [step] + rest, fallback) == Run(Next(s, step, fallback), rest, fallback)
  {
    assert ([step] + rest)[1..] == rest;
  }

  lemma RunThree(s: State, a: Step, b: Step, c: Step, fallback: Config)
    ensures Run(s, [a, b, c], fallback) == Next(Next(Next(s, a, fallback), b, fallback), c, fallback)
  {
    var s1 := Next(s, a, fallback);
    var s2 := Next(s1, b, fallback);
    RunCons(s, a, [b, c], fallback);
    RunCons(s1, b, [c], fallback);
    RunCons(s2, c, [], fallback);
    assert [a] + [b, c] == [a, b, c] && [b] + [c] == [b, c] && [c] + [] == [c];
  }

  lemma RunSix(s: State, a: Step, b: Step, c: Step, d: Step, e: Step, f: Step, fallback: Config)
    ensures Run(s, [a, b, c, d, e, f], fallback)
         == Next(Next(Next(Next(Next(Next(s, a, fallback), b, fallback), c, fallback), d, fallback), e, fallback), f,
             fallback)
  {
    var s1 := Next(s, a, fallback);
    var s2 := Next(s1, b, fallback);
    var s3 := Next(s2, c, fallback);
    RunCons(s, a, [b, c, d, e, f], fallback);
    RunCons(s1, b, [c, d, e, f], fallback);
    RunCons(s2, c, [d, e, f], fallback);
    RunThree(s3, d, e, f, fallback);
    assert [a] + [b, c, d, e, f] == [a, b, c, d, e, f] && [b] + [c, d, e, f] == [b, c, d, e, f]
          && [c] + [d, e, f] == [c, d, e, f];
  }

  // ---- writes and their invalidation ----

  predicate Since(seen: Option<nat>, m: nat) { seen.Some? ==> seen.value >= m }

  predicate ReadingSince(r: Reading, m: nat) { Since(r.enabledAt, m) && Since(r.providersAt, m) }

  // Nothing that could still be served to the tenant was read before the first m writes.
  predicate NothingOlder(s: State, tenant: string, m: nat) {
    && m <= |s.writes|
    && (tenant in s.cache ==> ReadingSince(s.cache[tenant].reading, m))
    && (forall l :: l in s.loads && s.loads[l].tenant == tenant ==> LoadSince(s.loads[l], m))
  }

  predicate LoadSince(l: Load, m: nat) {
    match l.phase
    case Missed => true
    case ReadFirst(_, seen) => Since(seen, m)
    case ReadBoth(reading) => ReadingSince(reading, m)
  }

  // What the steps of a run add to the served configurations.
  predicate Extends(s: State, t: State) {
    |s.served| <= |t.served| && t.served[..|s.served|] == s.served
  }

  predicate ServesSince(s: State, t: State, tenant: string, m: nat) {
    forall i :: |s.served| <= i < |t.served| && t.served[i].tenant == tenant ==> ReadingSince(t.served[i].reading, m)
  }

  lemma NothingOlderKept(s: State, step: Step, tenant: string, m: nat, fallback: Config)
    requires NothingOlder(s, tenant, m)
    ensures var t := Next(s, step, fallback);
            NothingOlder(t, tenant, m) && Extends(s, t) && ServesSince(s, t, tenant, m)
  {
  }

  lemma ServesThrough(s: State, t: State, u: State, tenant: string, m: nat)
    requires Extends(s, t) && Extends(t, u) && ServesSince(s, t, tenant, m) && ServesSince(t, u, tenant, m)
    ensures Extends(s, u) && ServesSince(s, u, tenant, m)
  {
    forall i | |s.served| <= i < |u.served| && u.served[i].tenant == tenant
      ensures ReadingSince(u.served[i].reading, m)
    {
      if i < |t.served| { assert u.served[..|t.served|][i] == t.served[i]; }
    }
    assert u.served[..|s.served|] == u.served[..|t.served|][..|s.served|];
  }

  lemma {:induction false} ServedSince(s: State, steps: seq<Step>, tenant: string, m: nat, fallback: Config)
    requires NothingOlder(s, tenant, m)
    ensures Extends(s, Run(s, steps, fallback)) && ServesSince(s, Run(s, steps, fallback), tenant, m)
    decreases |steps|
  {
    if steps != [] {
      var t := Next(s, steps[0], fallback);
      NothingOlderKept(s, steps[0], tenant, m, fallback);
      ServedSince(t, steps[1..], tenant, m, fallback);
      ServesThrough(s, t, Run(t, steps[1..], fallback), tenant, m);
    }
  }

  // A load of the tenant holds a value read before the first m writes were done.
  predicate OlderLoad(s: State, tenant: string, m: nat, l: nat) {
    l in s.loads && s.loads[l].tenant == tenant && !LoadSince(s.loads[l], m)
  }

  // The run serves the tenant, at position i, a value read before the first m writes were done.
  predicate ServesOlder(s: State, tenant: string, m: nat, steps: seq<Step>, i: nat, fallback: Config) {
    var t := Run(Next(s, Invalidate(tenant), fallback), steps, fallback);
    |s.served| <= i < |t.served| && t.served[i].tenant == tenant && !ReadingSince(t.served[i].reading, m)
  }

  // The steps that a load still has to take.
  function Finish(s: State, l: nat): seq<Step>
    requires l in s.loads
  {
    match s.loads[l].phase
    case Missed => [ReadEnabled(l, true), ReadProviders(l, true), Store(l)]
    case ReadFirst(_, _) => [ReadProviders(l, true), Store(l)]
    case ReadBoth(_) => [Store(l)]
  }

  lemma RunTwo(s: State, a: Step, b: Step, fallback: Config)
    ensures Run(s, [a, b], fallback) == Next(Next(s, a, fallback), b, fallback)
  {
    var s1 := Next(s, a, fallback);
    RunCons(s, a, [b], fallback);
    RunCons(s1, b, [], fallback);
    assert [a] + [b] == [a, b] && [b] + [] == [b];
  }

  // A load past its first read ends by serving and caching what it read first, whatever was written
  // or invalidated meanwhile.
  lemma FinishServes(s: State, l: nat, fallback: Config)
    requires l in s.loads && !s.loads[l].phase.Missed?
    ensures var tenant, t := s.loads[l].tenant, Run(s, Finish(s, l), fallback);
            && |t.served| == |s.served| + 1 && t.now == s.now && t.loads == s.loads - {l}
            && var v := t.served[|s.served|];
               && v.tenant == tenant && tenant in t.cache && t.cache[tenant] == Cached(v.reading, s.now)
               && (match s.loads[l].phase
                   case ReadFirst(enabled, seen) => v.reading.cfg.enabled == enabled && v.reading.enabledAt == seen
                   case ReadBoth(reading) => v.reading == reading
                   case Missed => true)
  {
    if s.loads[l].phase.ReadFirst? {
      RunTwo(s, ReadProviders(l, true), Store(l), fallback);
      var t := Next(Next(s, ReadProviders(l, true), fallback), Store(l), fallback);
      assert t.loads == s.loads - {l};
    } else {
      RunCons(s, Store(l), [], fallback);
      assert [Store(l)] + [] == [Store(l)];
    }
  }

  // After an invalidation some run serves the tenant a value read before any given write done until
  // then exactly if at that moment some load of the tenant holds one.
  lemma InvalidationByPosition(s: State, tenant: string, m: nat, fallback: Config)
    requires m <= |s.writes|
    ensures (exists steps: seq<Step>, i: nat :: ServesOlder(s, tenant, m, steps, i, fallback))
       <==> (exists l :: OlderLoad(s, tenant, m, l))
  {
    var cleared := Next(s, Invalidate(tenant), fallback);
    if l :| OlderLoad(s, tenant, m, l) {
      FinishServes(cleared, l, fallback);
      assert ServesOlder(s, tenant, m, Finish(cleared, l), |s.served|, fallback);
    } else {
      assert NothingOlder(cleared, tenant, m) by {
        forall l | l in s.loads && s.loads[l].tenant == tenant ensures LoadSince(s.loads[l], m) {
          assert !OlderLoad(s, tenant, m, l);
        }
      }
      forall steps: seq<Step>, i: nat ensures !ServesOlder(s, tenant, m, steps, i, fallback) {
        ServedSince(cleared, steps, tenant, m, fallback);
      }
    }
  }

  // ---- the values themselves ----

  // What was read from a row is what the rows hold now.
  predicate ReadingCurrent(r: Reading, held: Config) {
    && (r.enabledAt.Some? ==> r.cfg.enabled == held.enabled)
    && (r.providersAt.Some? ==> r.cfg.providers == held.providers)
  }

  predicate LoadCurrent(l: Load, held: Config) {
    match l.phase
    case Missed => true
    case ReadFirst(enabled, seen) => seen.Some? ==> enabled == held.enabled
    case ReadBoth(reading) => ReadingCurrent(reading, held)
  }

  // A load of the tenant holds a value that differs from the tenant's rows.
  predicate StaleLoad(s: State, tenant: string, l: nat, fallback: Config) {
    l in s.loads && s.loads[l].tenant == tenant && !LoadCurrent(s.loads[l], Held(s.writes, tenant, fallback))
  }

  predicate NoWriteOf(steps: seq<Step>, tenant: string) {
    forall step :: step in steps && step.Commit? ==> step.tenant != tenant
  }

  // After the invalidation the run, in which the tenant's rows stay as they are, serves the tenant, at
  // position i, a value that differs from them.
  predicate ServesStale(s: State, tenant: string, steps: seq<Step>, i: nat, fallback: Config) {
    var t := Run(Next(s, Invalidate(tenant), fallback), steps, fallback);
    && NoWriteOf(steps, tenant) && |s.served| <= i < |t.served| && t.served[i].tenant == tenant
    && !ReadingCurrent(t.served[i].reading, Held(s.writes, tenant, fallback))
  }

  predicate NothingStale(s: State, tenant: string, held: Config, fallback: Config) {
    && Held(s.writes, tenant, fallback) == held
    && (tenant in s.cache ==> ReadingCurrent(s.cache[tenant].reading, held))
    && (forall l :: l in s.loads && s.loads[l].tenant == tenant ==> LoadCurrent(s.loads[l], held))
  }

  predicate ServesCurrent(s: State, t: State, tenant: string, held: Config) {
    forall i :: |s.served| <= i < |t.served| && t.served[i].tenant == tenant ==>
        ReadingCurrent(t.served[i].reading, held)
  }

  lemma NothingStaleKept(s: State, step: Step, tenant: string, held: Config, fallback: Config)
    requires NothingStale(s, tenant, held, fallback) && (step.Commit? ==> step.tenant != tenant)
    ensures var t := Next(s, step, fallback);
            NothingStale(t, tenant, held, fallback) && Extends(s, t) && ServesCurrent(s, t, tenant, held)
  {
    if step.Commit? { HeldAfter(s.writes, Write(step.tenant, step.change, s.now), tenant, fallback); }
  }

  lemma CurrentThrough(s: State, t: State, u: State, tenant: string, held: Config)
    requires Extends(s, t) && Extends(t, u) && ServesCurrent(s, t, tenant, held) && ServesCurrent(t, u, tenant, held)
    ensures Extends(s, u) && ServesCurrent(s, u, tenant, held)
  {
    forall i | |s.served| <= i < |u.served| && u.served[i].tenant == tenant
      ensures ReadingCurrent(u.served[i].reading, held)
    {
      if i < |t.served| { assert u.served[..|t.served|][i] == t.served[i]; }
    }
    assert u.served[..|s.served|] == u.served[..|t.served|][..|s.served|];
  }

  lemma {:induction false} ServedCurrent(s: State, steps: seq<Step>, tenant: string, held: Config, fallback: Config)
    requires NothingStale(s, tenant, held, fallback) && NoWriteOf(steps, tenant)
    ensures Extends(s, Run(s, steps, fallback)) && ServesCurrent(s, Run(s, steps, fallback), tenant, held)
    decreases |steps|
  {
    if steps != [] {
      var t := Next(s, steps[0], fallback);
      assert steps[0] in steps;
      NothingStaleKept(s, steps[0], tenant, held, fallback);
      ServedCurrent(t, steps[1..], tenant, held, fallback);
      CurrentThrough(s, t, Run(t, steps[1..], fallback), tenant, held);
    }
  }

  lemma FinishIsStale(s: State, tenant: string, l: nat, fallback: Config)
    requires StaleLoad(s, tenant, l, fallback)
    ensures ServesStale(s, tenant, Finish(s, l), |s.served|, fallback)
  {
    var cleared := Next(s, Invalidate(tenant), fallback);
    FinishServes(cleared, l, fallback);
    assert Finish(cleared, l) == Finish(s, l);
  }

  // After an invalidation some run serves the tenant a value that its rows, unchanged meanwhile, do
  // not hold exactly if at that moment some load of the tenant holds such a value.
  lemma InvalidationTakesEffect(s: State, tenant: string, fallback: Config)
    ensures (exists steps: seq<Step>, i: nat :: ServesStale(s, tenant, steps, i, fallback))
       <==> (exists l :: StaleLoad(s, tenant, l, fallback))
  {
    var cleared, held := Next(s, Invalidate(tenant), fallback), Held(s.writes, tenant, fallback);
    if l :| StaleLoad(s, tenant, l, fallback) {
      FinishIsStale(s, tenant, l, fallback);
    } else {
      assert NothingStale(cleared, tenant, held, fallback) by {
        forall l | l in s.loads && s.loads[l].tenant == tenant ensures LoadCurrent(s.loads[l], held) {
          assert !StaleLoad(s, tenant, l, fallback);
        }
      }
      forall steps: seq<Step>, i: nat ensures !ServesStale(s, tenant, steps, i, fallback) {
        if NoWriteOf(steps, tenant) { ServedCurrent(cleared, steps, tenant, held, fallback); }
      }
    }
  }

  // And what such a load puts back is served for the whole time to live, to requests that come
  // after the invalidation.
  lemma StraddlingLoadOutlivesInvalidation(s: State, tenant: string, l: nat, other: nat, wait: nat, fallback: Config)
    requires StaleLoad(s, tenant, l, fallback) && other !in s.loads && wait < 30_000
    ensures var t := Run(Next(s, Invalidate(tenant), fallback), Finish(s, l), fallback);
            var u := Next(Next(t, Tick(wait), fallback), Resolve(other, tenant), fallback);
            && |u.served| == |s.served| + 2 && u.served[|s.served| + 1].tenant == tenant
            && !ReadingCurrent(u.served[|s.served| + 1].reading, Held(s.writes, tenant, fallback))
  {
    var cleared := Next(s, Invalidate(tenant), fallback);
    FinishServes(cleared, l, fallback);
    FinishIsStale(s, tenant, l, fallback);
    assert Finish(cleared, l) == Finish(s, l);
    var t := Run(cleared, Finish(s, l), fallback);
    assert other !in t.loads;
    var waited := Next(t, Tick(wait), fallback);
    assert tenant in waited.cache && Fresh(waited.cache[tenant], waited.now);
  }

  // ---- only loads around the tenant's own last write are stale ----

  // How many writes were done when the tenant's own last one was.
  function LastOwn(writes: seq<Write<Change>>, tenant: string): (m: nat)
    ensures m <= |writes|
  {
    if writes == [] then 0
    else if writes[|writes| - 1].tenant == tenant then |writes|
    else LastOwn(writes[..|writes| - 1], tenant)
  }

  lemma {:induction false} HeldSinceLastOwn(writes: seq<Write<Change>>, tenant: string, i: nat, fallback: Config)
    requires LastOwn(writes, tenant) <= i <= |writes|
    ensures Held(writes[..i], tenant, fallback) == Held(writes, tenant, fallback)
    decreases |writes|
  {
    if i == |writes| {
      assert writes[..i] == writes;
    } else {
      var before := writes[..|writes| - 1];
      assert writes == before + [writes[|writes| - 1]] && writes[..i] == before[..i];
      HeldSinceLastOwn(before, tenant, i, fallback);
      HeldAfter(before, writes[|writes| - 1], tenant, fallback);
    }
  }

  predicate StartedInTime(s: State) {
    0 <= s.now && forall l :: l in s.loads ==> 0 <= s.loads[l].started
  }

  lemma {:induction false} NowGrows(s: State, steps: seq<Step>, fallback: Config)
    ensures s.now <= Run(s, steps, fallback).now
    decreases |steps|
  {
    if steps != [] { NowGrows(Next(s, steps[0], fallback), steps[1..], fallback); }
  }

  // No load of a run takes longer than the run.
  lemma {:induction false} InTimeByTheEnd(s: State, steps: seq<Step>, d: nat, fallback: Config)
    requires StartedInTime(s) && Run(s, steps, fallback).now <= d
    ensures AllInTime(s, steps, d, fallback)
    decreases |steps|
  {
    if steps != [] {
      NowGrows(s, steps, fallback);
      InTimeByTheEnd(Next(s, steps[0], fallback), steps[1..], d, fallback);
    }
  }

  // In every run a load that read nothing before the tenant's own last write holds what the rows hold.
  lemma OnlyStraddlersAreStale(steps: seq<Step>, tenant: string, l: nat, fallback: Config)
    ensures var s := Run(QUIET, steps, fallback);
            StaleLoad(s, tenant, l, fallback) ==> OlderLoad(s, tenant, LastOwn(s.writes, tenant), l)
  {
    var s := Run(QUIET, steps, fallback);
    NowGrows(QUIET, steps, fallback);
    InTimeByTheEnd(QUIET, steps, s.now, fallback);
    RunSound(QUIET, steps, s.now, fallback);
    if StaleLoad(s, tenant, l, fallback) && LoadSince(s.loads[l], LastOwn(s.writes, tenant)) {
      assert LoadSound(s, l, fallback);
      match s.loads[l].phase
      case ReadFirst(_, seen) => HeldSinceLastOwn(s.writes, tenant, seen.value, fallback);
      case ReadBoth(r) =>
        if r.enabledAt.Some? { HeldSinceLastOwn(s.writes, tenant, r.enabledAt.value, fallback); }
        if r.providersAt.Some? { HeldSinceLastOwn(s.writes, tenant, r.providersAt.value, fallback); }
    }
  }

  // So if no load straddles the tenant's own last write and the invalidation, whatever is served to
  // the tenant after it is what the rows hold, until the tenant writes again.
  lemma NewValueServed(before: seq<Step>, tenant: string, steps: seq<Step>, i: nat, fallback: Config)
    requires var s := Run(QUIET, before, fallback);
             forall l :: !OlderLoad(s, tenant, LastOwn(s.writes, tenant), l)
    ensures !ServesStale(Run(QUIET, before, fallback), tenant, steps, i, fallback)
  {
    var s := Run(QUIET, before, fallback);
    forall l ensures !StaleLoad(s, tenant, l, fallback) { OnlyStraddlersAreStale(before, tenant, l, fallback); }
    InvalidationTakesEffect(s, tenant, fallback);
  }

  // A load that read the switch before it was changed is one that does.
  lemma StraddlerIsStale(tenant: string, fallback: Config)
    ensures StaleLoad(Run(QUIET, [Resolve(0, tenant), ReadEnabled(0, true),
                                  Commit(tenant, SetEnabled(!fallback.enabled))], fallback),
                      tenant, 0, fallback)
  {
    var change := SetEnabled(!fallback.enabled);
    RunThree(QUIET, Resolve(0, tenant), ReadEnabled(0, true), Commit(tenant, change), fallback);
    var s := Next(Next(QUIET, Resolve(0, tenant), fallback), ReadEnabled(0, true), fallback);
    assert s.loads[0] == Load(tenant, 0, ReadFirst(fallback.enabled, Some(0)));
    HeldAfter([], Write(tenant, change, 0), tenant, fallback);
  }

  // ---- keys and calls ----

  const SENTINEL: string := "00000000-0000-0000-0000-000000000001"

  // The key under which a request's configuration is loaded and cached.
  function KeyOf(sentinelFallback: bool, tenant: string): Option<string> {
    if tenant != "" then Some(tenant)
    else if sentinelFallback then Some(SENTINEL)
    else None
  }

  // Two named tenants share a key only if they are the same; a request without a tenant has none, or
  // that of the sentinel tenant.
  lemma KeysDistinct(sentinelFallback: bool, a: string, b: string)
    ensures a != "" && b != "" ==> (KeyOf(sentinelFallback, a) == KeyOf(sentinelFallback, b) <==> a == b)
    ensures KeyOf(sentinelFallback, a) == None <==> a == "" && !sentinelFallback
    ensures a == "" && sentinelFallback ==>
              KeyOf(sentinelFallback, a) == KeyOf(sentinelFallback, "00000000-0000-0000-0000-000000000001")
  {
  }

  // A call, with the configuration that the rows of each tenant id would give to a load of its own.
  datatype Call = ResolveCall(tenant: string, loaded: string -> Reading, now: int, storedAt: int)
                | InvalidateCall(tenant: string)

  // What a call returns, if it resolves, and the cache after it.
  function Answer(cache: map<string, Cached>, sentinelFallback: bool, call: Call)
    : (Option<Config>, map<string, Cached>)
  {
    var key := KeyOf(sentinelFallback, call.tenant);
    match call
    case ResolveCall(_, loaded, now, storedAt) =>
      if key == None then (Some(Config(false, [])), cache)
      else if key.value in cache && Fresh(cache[key.value], now) then (Some(cache[key.value].reading.cfg), cache)
      else (Some(loaded(key.value).cfg), cache[key.value := Cached(loaded(key.value), storedAt)])
    case InvalidateCall(_) => (None, if key == None then cache else cache - {key.value})
  }

  function CacheAfter(sentinelFallback: bool, calls: seq<Call>): map<string, Cached> {
    if calls == [] then map[]
    else Answer(CacheAfter(sentinelFallback, calls[..|calls| - 1]), sentinelFallback, calls[|calls| - 1]).1
  }

  // The call resolved the tenant of this id, or no tenant if the id is the sentinel's.
  predicate ForTenant(call: Call, id: string) {
    call.ResolveCall? && (call.tenant == id || (call.tenant == "" && id == "00000000-0000-0000-0000-000000000001"))
  }

  // Every entry was loaded under its own id, by a call for that tenant that no invalidation of the
  // tenant came after.
  ghost predicate LoadedBy(calls: seq<Call>, id: string, e: Cached) {
    exists j :: 0 <= j < |calls| && ForTenant(calls[j], id) && LoadedAt(calls, j, id, e)
  }

  predicate LoadedAt(calls: seq<Call>, j: nat, id: string, e: Cached)
    requires j < |calls| && calls[j].ResolveCall?
  {
    && e == Cached(calls[j].loaded(id), calls[j].storedAt)
    && forall i :: j < i < |calls| && calls[i].InvalidateCall? ==> calls[i].tenant != id
  }

  lemma LoadedStays(calls: seq<Call>, more: Call, id: string, e: Cached)
    requires LoadedBy(calls, id, e) && !(more.InvalidateCall? && more.tenant == id)
    ensures LoadedBy(calls + [more], id, e)
  {
    var j :| 0 <= j < |calls| && ForTenant(calls[j], id) && LoadedAt(calls, j, id, e);
    assert (calls + [more])[j] == calls[j] && LoadedAt(calls + [more], j, id, e);
  }

  lemma {:induction false} EntriesLoaded(sentinelFallback: bool, calls: seq<Call>, id: string)
    requires id != "" && id in CacheAfter(sentinelFallback, calls)
    ensures LoadedBy(calls, id, CacheAfter(sentinelFallback, calls)[id])
    decreases |calls|
  {
    var n := |calls| - 1;
    var before, call := calls[..n], calls[n];
    var cache := CacheAfter(sentinelFallback, before);
    var e := CacheAfter(sentinelFallback, calls)[id];
    assert calls == before + [call];
    if id in cache && cache[id] == e && !(call.InvalidateCall? && call.tenant == id) {
      EntriesLoaded(sentinelFallback, before, id);
      LoadedStays(before, call, id, e);
    } else {
      assert ForTenant(calls[n], id) && LoadedAt(calls, n, id, e);
    }
  }

  // Over every sequence of calls: what a named tenant gets was loaded from the rows of its own id, by
  // this call or, less than the time to live ago and with no invalidation of the tenant since, by an
  // earlier call for it.
  lemma OwnConfigOnly(sentinelFallback: bool, before: seq<Call>, call: Call)
    requires call.ResolveCall? && call.tenant != ""
    ensures var got := Answer(CacheAfter(sentinelFallback, before), sentinelFallback, call).0;
            got == Some(call.loaded(call.tenant).cfg)
            || exists e :: LoadedBy(before, call.tenant, e) && call.now - e.at < 30_000 && got == Some(e.reading.cfg)
  {
    var cache := CacheAfter(sentinelFallback, before);
    if call.tenant in cache && Fresh(cache[call.tenant], call.now) {
      EntriesLoaded(sentinelFallback, before, call.tenant);
    }
  }

  // A call touches no entry but its own tenant's, and an invalidation leaves none for it: the next call
  // of the tenant loads.
  lemma OthersKept(cache: map<string, Cached>, sentinelFallback: bool, call: Call, other: string)
    requires call.tenant != "" && other != call.tenant
    ensures var after := Answer(cache, sentinelFallback, call).1;
            && (other in after <==> other in cache) && (other in cache ==> after[other] == cache[other])
            && (call.InvalidateCall? ==> call.tenant !in after)
  {
  }

  // One resolution with nothing in between is the steps of the interleaved model.
  lemma ResolveIsSteps(s: State, l: nat, tenant: string, wait: nat, fallback: Config)
    requires tenant != "" && l !in s.loads
    ensures var held := Held(s.writes, tenant, fallback);
            var reading := Reading(held, Some(|s.writes|), Some(|s.writes|));
            var call := ResolveCall(tenant, id => reading, s.now, s.now + wait);
            var t := Next(Next(Next(Next(Next(s, Resolve(l, tenant), fallback), ReadEnabled(l, true), fallback),
                                    ReadProviders(l, true), fallback),
                               Tick(wait), fallback),
                          Store(l), fallback);
            && t.cache == Answer(s.cache, false, call).1 && t.loads == s.loads
            && |t.served| == |s.served| + 1 && t.served[|s.served|].tenant == tenant
            && Some(t.served[|s.served|].reading.cfg) == Answer(s.cache, false, call).0
  {
    var held := Held(s.writes, tenant, fallback);
    var reading := Reading(held, Some(|s.writes|), Some(|s.writes|));
    if tenant in s.cache && Fresh(s.cache[tenant], s.now) {
    } else {
      var s1 := Next(s, Resolve(l, tenant), fallback);
      assert s1.loads[l] == Load(tenant, s.now, Missed);
      var s2 := Next(s1, ReadEnabled(l, true), fallback);
      assert s2.loads[l] == Load(tenant, s.now, ReadFirst(held.enabled, Some(|s.writes|)));
      var s3 := Next(s2, ReadProviders(l, true), fallback);
      assert s3.loads[l] == Load(tenant, s.now, ReadBoth(reading));
      var t := Next(Next(s3, Tick(wait), fallback), Store(l), fallback);
      assert t.loads == s.loads;
    }
  }

  // ---- the code ----

  class Resolver {
    var cache: map<string, Cached>
    const sentinelFallback: bool

    constructor (sentinelFallback: bool)
      ensures cache == map[] && this.sentinelFallback == sentinelFallback
    {
      cache := map[];
      this.sentinelFallback := sentinelFallback;
    }

    function ResolveKey(tenant: string): (key: Option<string>)
      ensures key == None <==> tenant == "" && !sentinelFallback
      ensures key == KeyOf(sentinelFallback, tenant)
    {
      if tenant != "" then Some(tenant)
      else if sentinelFallback then Some(SENTINEL)
      else None
    }

    method Lookup(key: string, now: int) returns (hit: Option<Reading>)
      ensures hit == if key in cache && Fresh(cache[key], now) then Some(cache[key].reading) else None
    {
      if key in cache && now - cache[key].at < TTL { return Some(cache[key].reading); }
      return None;
    }

    method Put(key: string, reading: Reading, at: int)
      modifies this
      ensures cache == old(cache)[key := Cached(reading, at)]
    {
      cache := cache[key := Cached(reading, at)];
    }

    // `loaded` is what the rows of each id give to a load that ends at `storedAt`.
    method ResolveTenant(tenant: string, loaded: string -> Reading, now: int, storedAt: int) returns (cfg: Config)
      modifies this
      ensures (Some(cfg), cache) == Answer(old(cache), sentinelFallback, ResolveCall(tenant, loaded, now, storedAt))
    {
      var key := ResolveKey(tenant);
      if key == None { return Config(false, []); }
      var hit := Lookup(key.value, now);
      if hit.Some? { return hit.value.cfg; }
      var reading := loaded(key.value);
      Put(key.value, reading, storedAt);
      return reading.cfg;
    }

    method InvalidateTenant(tenant: string)
      modifies this
      ensures (None, cache) == Answer(old(cache), sentinelFallback, InvalidateCall(tenant))
    {
      var key := ResolveKey(tenant);
      if key == None { return; }
      cache := cache - {key.value};
    }
  }
}
