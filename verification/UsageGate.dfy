// The usage gate: limits are checked before a turn and counted after it, in separate atomic steps
// per scope, with rolling windows.  Concurrent turns overshoot a limit by a bounded amount.
module UsageGate {
  import opened Prelude

  // Clock readings count microseconds; the gate compares whole seconds, the database does not.
  const SECOND: nat := 1_000_000

  // The tenant-wide counter is kept under the empty user.
  const TENANT: string := ""

  datatype Unit = Turns | Steps

  datatype Limit = Limit(unit: Unit, value: nat, interval: nat, enabled: bool)

  datatype Limits = Limits(tenant: Option<Limit>, user: Option<Limit>)

  datatype Counter = Counter(periodStart: nat, turns: nat, steps: nat)

  type Counters = map<string, Counter>

  function LimitFor(ls: Limits, key: string): Option<Limit> {
    if key == TENANT then ls.tenant else ls.user
  }

  function CountOf(c: Counter, unit: Unit): nat {
    if unit == Steps then c.steps else c.turns
  }

  // What the gate reads.
  function EffectiveCount(counters: Counters, key: string, l: Limit, now: nat): nat {
    if key !in counters then 0
    else if now / SECOND - counters[key].periodStart / SECOND > l.interval then 0
    else CountOf(counters[key], l.unit)
  }

  // What the counting statement takes for a window that is over.
  predicate Elapsed(c: Counter, interval: nat, now: nat) {
    now - c.periodStart > interval * SECOND
  }

  function InWindow(counters: Counters, key: string, l: Limit, now: nat): nat {
    if key !in counters || Elapsed(counters[key], l.interval, now) then 0 else CountOf(counters[key], l.unit)
  }

  predicate Blocked(l: Option<Limit>, counters: Counters, key: string, now: nat) {
    l.Some? && l.value.enabled && EffectiveCount(counters, key, l.value, now) >= l.value.value
  }

  function Incremented(counters: Counters, key: string, interval: nat, turns: nat, steps: nat, now: nat): Counter {
    if key !in counters || Elapsed(counters[key], interval, now) then Counter(now, turns, steps)
    else Counter(counters[key].periodStart, counters[key].turns + turns, counters[key].steps + steps)
  }

  function Bump(l: Option<Limit>, counters: Counters, key: string, turns: nat, steps: nat, now: nat): Counters {
    match l
    case None => counters
    case Some(limit) => counters[key := Incremented(counters, key, limit.interval, turns, steps, now)]
  }

  // The gate rounds to seconds in the cautious direction: it never takes a window for over before
  // the counting statement does.
  lemma GateReadsNoLess(counters: Counters, key: string, l: Limit, now: nat)
    ensures InWindow(counters, key, l, now) <= EffectiveCount(counters, key, l, now)
  {
    if key in counters {
      WholeSecondsElapse(now, counters[key].periodStart, l.interval);
    }
  }

  lemma WholeSecondsElapse(now: nat, start: nat, interval: nat)
    ensures now / SECOND - start / SECOND > interval ==> now - start > interval * SECOND
  {
  }

  // ---- concurrent turns ----

  datatype Phase = Started | TenantChecked | Admitted | TenantRecorded(steps: nat)

  // A resume is gated and counted like a turn, except that it counts no turn of its own.
  datatype Flight = Flight(user: string, resume: bool, phase: Phase)

  // The log remembers every increment: the reference that the counters summarise.
  datatype Entry = Entry(key: string, at: nat, turns: nat, steps: nat)

  datatype State = State(now: nat, counters: Counters, flights: map<nat, Flight>, log: seq<Entry>)

  datatype Step = Tick(elapsed: nat)
                | Start(id: nat, user: string, resume: bool)
                | Check(id: nat)
                | Record(id: nat, steps: nat)
                | Leave(id: nat)

  function Pass(ls: Limits, s: State, id: nat, key: string, phase: Phase): State
    requires id in s.flights
  {
    if Blocked(LimitFor(ls, key), s.counters, key, s.now) then s.(flights := s.flights - {id})
    else s.(flights := s.flights[id := s.flights[id].(phase := phase)])
  }

  function Settle(ls: Limits, s: State, key: string, turns: nat, steps: nat): State {
    if LimitFor(ls, key) == None then s
    else s.(counters := Bump(LimitFor(ls, key), s.counters, key, turns, steps, s.now),
            log := s.log + [Entry(key, s.now, turns, steps)])
  }

  // One atomic step; a step that does not apply changes nothing.  Leaving stands for every way to
  // end without counting: no output, an error, nothing to count.
  function Next(ls: Limits, s: State, step: Step): State {
    match step
    case Tick(elapsed) => s.(now := s.now + elapsed)
    case Start(id, user, resume) =>
      if id in s.flights || user == TENANT then s
      else s.(flights := s.flights[id := Flight(user, resume, Started)])
    case Check(id) =>
      if id !in s.flights then s
      else (
        match s.flights[id].phase
        case Started => Pass(ls, s, id, TENANT, TenantChecked)
        case TenantChecked => Pass(ls, s, id, s.flights[id].user, Admitted)
        case _ => s)
    case Record(id, steps) =>
      if id !in s.flights then s
      else (
        var f := s.flights[id];
        var turns := if f.resume then 0 else 1;
        match f.phase
        case Admitted =>
          Settle(ls, s.(flights := s.flights[id := f.(phase := TenantRecorded(steps))]), TENANT, turns, steps)
        case TenantRecorded(counted) =>
          Settle(ls, s.(flights := s.flights - {id}), f.user, turns, counted)
        case _ => s)
    case Leave(id) => s.(flights := s.flights - {id})
  }

  function Run(ls: Limits, s: State, steps: seq<Step>): State
    decreases |steps|
  {
    if steps == [] then s else Run(ls, Next(ls, s, steps[0]), steps[1..])
  }

  // Past the check of this scope, with its count still to come.
  predicate Owes(f: Flight, key: string) {
    if key == TENANT then f.phase.TenantChecked? || f.phase.Admitted?
    else f.user == key && (f.phase.Admitted? || f.phase.TenantRecorded?)
  }

  ghost function InFlight(s: State, key: string): set<nat> {
    set id | id in s.flights && Owes(s.flights[id], key)
  }

  // ---- what one admitted flight counts ----

  function Used(s: State, key: string, l: Limit, unit: Unit): nat {
    InWindow(s.counters, key, l.(unit := unit), s.now)
  }

  lemma SettleCounts(ls: Limits, s: State, at: string, turns: nat, steps: nat, key: string, l: Limit)
    requires LimitFor(ls, key) == Some(l)
    ensures var t := Settle(ls, s, at, turns, steps);
            && Used(t, key, l, Turns) == Used(s, key, l, Turns) + (if at == key then turns else 0)
            && Used(t, key, l, Steps) == Used(s, key, l, Steps) + (if at == key then steps else 0)
            && t.flights == s.flights && t.now == s.now
  {
  }

  // Its two counting steps add its steps once to the tenant's window and once to the user's, and one
  // turn to each unless it is a resume; no other user's window moves.
  lemma FlightCountsOnce(ls: Limits, s: State, id: nat, steps: nat, key: string, l: Limit)
    requires id in s.flights && s.flights[id].phase == Admitted && s.flights[id].user != TENANT
    requires LimitFor(ls, key) == Some(l)
    ensures var f, t := s.flights[id], Next(ls, Next(ls, s, Record(id, steps)), Record(id, 0));
            var mine := key == TENANT || key == f.user;
            && Used(t, key, l, Turns) == Used(s, key, l, Turns) + (if mine && !f.resume then 1 else 0)
            && Used(t, key, l, Steps) == Used(s, key, l, Steps) + (if mine then steps else 0)
            && t.flights == s.flights - {id}
  {
    var f, turns := s.flights[id], if s.flights[id].resume then 0 else 1;
    var s1 := s.(flights := s.flights[id := f.(phase := TenantRecorded(steps))]);
    SettleCounts(ls, s1, TENANT, turns, steps, key, l);
    var s2 := Settle(ls, s1, TENANT, turns, steps);
    SettleCounts(ls, s2.(flights := s2.flights - {id}), f.user, turns, steps, key, l);
  }

  // ---- the overshoot ----

  // The most one flight can add to the unit that the limit counts.
  function Weight(unit: Unit, maxSteps: nat): nat {
    if unit == Steps then maxSteps else 1
  }

  ghost predicate AtMost(s: State, key: string, l: Limit, c: nat, maxSteps: nat) {
    var w, top := Weight(l.unit, maxSteps), l.value - 1 + c * Weight(l.unit, maxSteps);
    && InWindow(s.counters, key, l, s.now) + |InFlight(s, key)| * w <= top
    && (key in s.counters ==> CountOf(s.counters[key], l.unit) <= top)
  }

  predicate StepsWithin(s: State, maxSteps: nat) {
    forall id :: id in s.flights && s.flights[id].phase.TenantRecorded? ==> s.flights[id].phase.steps <= maxSteps
  }

  predicate UsersNamed(s: State) {
    forall id :: id in s.flights ==> s.flights[id].user != TENANT
  }

  ghost predicate Bounded(s: State, key: string, l: Limit, c: nat, maxSteps: nat) {
    AtMost(s, key, l, c, maxSteps) && StepsWithin(s, maxSteps) && UsersNamed(s)
  }

  predicate StepFits(step: Step, maxSteps: nat) {
    step.Record? ==> step.steps <= maxSteps
  }

  lemma SubsetSize(a: set<nat>, b: set<nat>)
    requires a <= b
    ensures |a| <= |b|
  {
    assert b == a + (b - a);
  }

  lemma LessFlight(s: State, t: State, key: string, l: Limit, c: nat, maxSteps: nat)
    requires AtMost(s, key, l, c, maxSteps)
    requires t.counters == s.counters && t.now >= s.now && InFlight(t, key) <= InFlight(s, key)
    ensures AtMost(t, key, l, c, maxSteps)
  {
    SubsetSize(InFlight(t, key), InFlight(s, key));
    Times(|InFlight(t, key)|, |InFlight(s, key)|, Weight(l.unit, maxSteps));
  }

  lemma Times(a: nat, b: nat, w: nat)
    requires a <= b
    ensures a * w <= b * w
  {
  }

  lemma PassedCheck(s: State, t: State, key: string, l: Limit, c: nat, maxSteps: nat)
    requires AtMost(s, key, l, c, maxSteps)
    requires t.counters == s.counters && t.now == s.now && |InFlight(t, key)| <= c
    requires EffectiveCount(s.counters, key, l, s.now) < l.value
    ensures AtMost(t, key, l, c, maxSteps)
  {
    GateReadsNoLess(s.counters, key, l, s.now);
    Times(|InFlight(t, key)|, c, Weight(l.unit, maxSteps));
  }

  lemma PassBounded(ls: Limits, s: State, id: nat, at: string, phase: Phase,
                    key: string, l: Limit, c: nat, maxSteps: nat)
    requires LimitFor(ls, key) == Some(l) && l.enabled
    requires Bounded(s, key, l, c, maxSteps) && id in s.flights
    requires (at == TENANT && s.flights[id].phase == Started && phase == TenantChecked)
          || (at == s.flights[id].user && s.flights[id].phase == TenantChecked && phase == Admitted)
    requires |InFlight(Pass(ls, s, id, at, phase), key)| <= c
    ensures Bounded(Pass(ls, s, id, at, phase), key, l, c, maxSteps)
  {
    var t := Pass(ls, s, id, at, phase);
    if at == key && !Blocked(LimitFor(ls, key), s.counters, key, s.now) {
      PassedCheck(s, t, key, l, c, maxSteps);
    } else {
      LessFlight(s, t, key, l, c, maxSteps);
    }
  }

  lemma SettleBounded(ls: Limits, s: State, t: State, key: string, l: Limit, id: nat,
                      turns: nat, steps: nat, c: nat, maxSteps: nat)
    requires LimitFor(ls, key) == Some(l) && l.value >= 1 && AtMost(s, key, l, c, maxSteps)
    requires id in InFlight(s, key) && InFlight(t, key) == InFlight(s, key) - {id}
    requires t.counters == Bump(Some(l), s.counters, key, turns, steps, s.now) && t.now == s.now
    requires turns <= 1 && steps <= maxSteps && |InFlight(s, key)| <= c
    ensures AtMost(t, key, l, c, maxSteps)
  {
    var n, w := |InFlight(s, key)|, Weight(l.unit, maxSteps);
    assert |InFlight(t, key)| == n - 1;
    assert (n - 1) * w == n * w - w;
    var added := if l.unit == Steps then steps else turns;
    assert added <= w;
    assert CountOf(t.counters[key], l.unit) == InWindow(s.counters, key, l, s.now) + added;
    Times(1, n, w);
  }

  lemma RecordBounded(ls: Limits, s: State, step: Step, key: string, l: Limit, c: nat, maxSteps: nat)
    requires LimitFor(ls, key) == Some(l) && l.enabled && l.value >= 1
    requires Bounded(s, key, l, c, maxSteps) && StepFits(step, maxSteps) && |InFlight(s, key)| <= c
    requires step.Record? && step.id in s.flights
    requires s.flights[step.id].phase.Admitted? || s.flights[step.id].phase.TenantRecorded?
    ensures AtMost(Next(ls, s, step), key, l, c, maxSteps)
  {
    var id, f, t := step.id, s.flights[step.id], Next(ls, s, step);
    var at := if f.phase.Admitted? then TENANT else f.user;
    var turns := if f.resume then 0 else 1;
    var steps := if f.phase.Admitted? then step.steps else f.phase.steps;
    if at == key {
      assert InFlight(t, key) == InFlight(s, key) - {id};
      SettleBounded(ls, s, t, key, l, id, turns, steps, c, maxSteps);
    } else {
      assert InFlight(t, key) <= InFlight(s, key);
      SubsetSize(InFlight(t, key), InFlight(s, key));
      Times(|InFlight(t, key)|, |InFlight(s, key)|, Weight(l.unit, maxSteps));
    }
  }

  lemma NextBounded(ls: Limits, s: State, step: Step, key: string, l: Limit, c: nat, maxSteps: nat)
    requires LimitFor(ls, key) == Some(l) && l.enabled && l.value >= 1
    requires Bounded(s, key, l, c, maxSteps) && StepFits(step, maxSteps)
    requires |InFlight(s, key)| <= c && |InFlight(Next(ls, s, step), key)| <= c
    ensures Bounded(Next(ls, s, step), key, l, c, maxSteps)
  {
    var t := Next(ls, s, step);
    if step.Check? && step.id in s.flights && s.flights[step.id].phase.Started? {
      PassBounded(ls, s, step.id, TENANT, TenantChecked, key, l, c, maxSteps);
    } else if step.Check? && step.id in s.flights && s.flights[step.id].phase.TenantChecked? {
      PassBounded(ls, s, step.id, s.flights[step.id].user, Admitted, key, l, c, maxSteps);
    } else if step.Record? && step.id in s.flights
              && (s.flights[step.id].phase.Admitted? || s.flights[step.id].phase.TenantRecorded?) {
      RecordBounded(ls, s, step, key, l, c, maxSteps);
    } else {
      LessFlight(s, t, key, l, c, maxSteps);
    }
  }

  // At most c flights are past the check and uncounted, in every state of the run.
  ghost predicate Concurrency(ls: Limits, s: State, steps: seq<Step>, key: string, c: nat)
    decreases |steps|
  {
    |InFlight(s, key)| <= c && (steps != [] ==> Concurrency(ls, Next(ls, s, steps[0]), steps[1..], key, c))
  }

  predicate StepsFit(steps: seq<Step>, maxSteps: nat) {
    forall step :: step in steps ==> StepFits(step, maxSteps)
  }

  lemma {:induction false} RunBounded(ls: Limits, s: State, steps: seq<Step>, key: string, l: Limit, c: nat,
                                      maxSteps: nat)
    requires LimitFor(ls, key) == Some(l) && l.enabled && l.value >= 1
    requires Bounded(s, key, l, c, maxSteps) && StepsFit(steps, maxSteps) && Concurrency(ls, s, steps, key, c)
    ensures Bounded(Run(ls, s, steps), key, l, c, maxSteps)
    decreases |steps|
  {
    if steps != [] {
      assert steps[0] in steps;
      NextBounded(ls, s, steps[0], key, l, c, maxSteps);
      RunBounded(ls, Next(ls, s, steps[0]), steps[1..], key, l, c, maxSteps);
    }
  }

  // ---- the counters against the log ----

  function LogSum(log: seq<Entry>, key: string, unit: Unit, since: nat): nat
    decreases |log|
  {
    if log == [] then 0
    else
      var e := log[|log| - 1];
      LogSum(log[..|log| - 1], key, unit, since)
      + if e.key == key && since <= e.at then (if unit == Steps then e.steps else e.turns) else 0
  }

  // A counter holds the sum of what was logged since its window opened, and every logged increment
  // fell within the window that was open at the time.
  ghost predicate Summarises(s: State, key: string, l: Limit) {
    if key !in s.counters then forall e :: e in s.log ==> e.key != key
    else
      && s.counters[key].periodStart <= s.now
      && LogSum(s.log, key, l.unit, s.counters[key].periodStart) == CountOf(s.counters[key], l.unit)
      && forall e :: e in s.log && e.key == key ==> e.at <= s.now && !Elapsed(s.counters[key], l.interval, e.at)
  }

  lemma {:induction false} NothingSince(log: seq<Entry>, key: string, unit: Unit, since: nat)
    requires forall e :: e in log && e.key == key ==> e.at < since
    ensures LogSum(log, key, unit, since) == 0
    decreases |log|
  {
    if log != [] {
      assert log[|log| - 1] in log;
      NothingSince(log[..|log| - 1], key, unit, since);
    }
  }

  lemma SettleSummarises(ls: Limits, s: State, at: string, turns: nat, steps: nat, key: string, l: Limit)
    requires LimitFor(ls, key) == Some(l) && Summarises(s, key, l)
    ensures Summarises(Settle(ls, s, at, turns, steps), key, l)
  {
    var t := Settle(ls, s, at, turns, steps);
    if LimitFor(ls, at) != None {
      var e := Entry(at, s.now, turns, steps);
      assert t.log == s.log + [e] && t.log[..|t.log| - 1] == s.log && t.log[|t.log| - 1] == e;
      if at == key && (key !in s.counters || Elapsed(s.counters[key], l.interval, s.now)) {
        NothingSince(s.log, key, l.unit, s.now);
      }
    }
  }

  lemma NextSummarises(ls: Limits, s: State, step: Step, key: string, l: Limit)
    requires LimitFor(ls, key) == Some(l) && Summarises(s, key, l)
    ensures Summarises(Next(ls, s, step), key, l)
  {
    if step.Record? && step.id in s.flights {
      var f := s.flights[step.id];
      var turns := if f.resume then 0 else 1;
      if f.phase.Admitted? {
        var moved := s.(flights := s.flights[step.id := f.(phase := TenantRecorded(step.steps))]);
        SettleSummarises(ls, moved, TENANT, turns, step.steps, key, l);
      } else if f.phase.TenantRecorded? {
        SettleSummarises(ls, s.(flights := s.flights - {step.id}), f.user, turns, f.phase.steps, key, l);
      }
    }
  }

  lemma {:induction false} RunSummarises(ls: Limits, s: State, steps: seq<Step>, key: string, l: Limit)
    requires LimitFor(ls, key) == Some(l) && Summarises(s, key, l)
    ensures Summarises(Run(ls, s, steps), key, l)
    decreases |steps|
  {
    if steps != [] {
      NextSummarises(ls, s, steps[0], key, l);
      RunSummarises(ls, Next(ls, s, steps[0]), steps[1..], key, l);
    }
  }

  const QUIET := State(0, map[], map[], [])

  // In every interleaving of checks and counts, what was counted for an enabled limit since its
  // window opened exceeds the limit by less than one flight's most for each flight that can be
  // between its check and its count: limit - 1 + c turns, or limit - 1 + c * maxSteps steps.
  lemma OvershootBounded(ls: Limits, steps: seq<Step>, key: string, l: Limit, c: nat, maxSteps: nat)
    requires LimitFor(ls, key) == Some(l) && l.enabled && l.value >= 1
    requires StepsFit(steps, maxSteps) && Concurrency(ls, QUIET, steps, key, c)
    ensures var end := Run(ls, QUIET, steps);
            key in end.counters ==>
              LogSum(end.log, key, l.unit, end.counters[key].periodStart) <= l.value - 1 + c * Weight(l.unit, maxSteps)
  {
    assert InFlight(QUIET, key) == {};
    RunBounded(ls, QUIET, steps, key, l, c, maxSteps);
    RunSummarises(ls, QUIET, steps, key, l);
  }

  // ---- the gate from the other side: it refuses nobody without cause ----

  // Whole seconds at most one second apart from the exact difference.
  lemma WholeSecondsBetween(now: nat, start: nat, interval: nat)
    requires start <= now
    ensures now - start >= (interval + 1) * SECOND ==> now / SECOND - start / SECOND > interval
    ensures now - start <= interval * SECOND ==> now / SECOND - start / SECOND <= interval
  {
  }

  // A window that is a second more than over reads as zero; one that is not over reads as its count.
  lemma GateWindow(counters: Counters, key: string, l: Limit, now: nat)
    requires key in counters ==> counters[key].periodStart <= now
    ensures key !in counters ==> EffectiveCount(counters, key, l, now) == 0
    ensures key in counters ==>
              var c, used := counters[key], EffectiveCount(counters, key, l, now);
              && (now - c.periodStart >= (l.interval + 1) * SECOND ==> used == 0)
              && (now - c.periodStart <= l.interval * SECOND ==> used == if l.unit == Steps then c.steps else c.turns)
              && (used == 0 || used == if l.unit == Steps then c.steps else c.turns)
  {
    if key in counters { WholeSecondsBetween(now, counters[key].periodStart, l.interval); }
  }

  // The gate against the log, over every run: with its window open it reads what was logged in it.
  lemma GateReadsLog(ls: Limits, steps: seq<Step>, key: string, l: Limit)
    requires LimitFor(ls, key) == Some(l)
    ensures var s := Run(ls, QUIET, steps);
            var used := EffectiveCount(s.counters, key, l, s.now);
            && (key !in s.counters ==> used == 0 && forall e :: e in s.log ==> e.key != key)
            && (key in s.counters ==>
                  var p := s.counters[key].periodStart;
                  && p <= s.now
                  && (s.now - p >= (l.interval + 1) * SECOND ==> used == 0)
                  && (s.now - p <= l.interval * SECOND ==> used == LogSum(s.log, key, l.unit, p))
                  && used in {0, LogSum(s.log, key, l.unit, p)})
  {
    RunSummarises(ls, QUIET, steps, key, l);
    var s := Run(ls, QUIET, steps);
    GateWindow(s.counters, key, l, s.now);
  }

  // The scope whose limit a flight meets next.
  predicate NextScope(f: Flight, key: string) {
    match f.phase
    case Started => key == ""
    case TenantChecked => key == f.user
    case _ => false
  }

  // The log holds at least the limit, in its unit, in a window that opened less than the interval and
  // one second ago.
  ghost predicate UsedUp(s: State, key: string, l: Limit) {
    exists p: nat :: p <= s.now && s.now - p < (l.interval + 1) * SECOND && LogSum(s.log, key, l.unit, p) >= l.value
  }

  // In every reachable state a caller that is refused meets a limit that is switched on and used up, or
  // admits nothing at all; and one that meets no limit, or one that is switched off, passes.
  lemma RefusalHasCause(ls: Limits, steps: seq<Step>, id: nat, key: string)
    requires var s := Run(ls, QUIET, steps); id in s.flights && NextScope(s.flights[id], key)
    ensures var s := Run(ls, QUIET, steps);
            id !in Next(ls, s, Check(id)).flights ==>
              && LimitFor(ls, key).Some? && LimitFor(ls, key).value.enabled
              && (LimitFor(ls, key).value.value == 0 || UsedUp(s, key, LimitFor(ls, key).value))
  {
    var s := Run(ls, QUIET, steps);
    if id !in Next(ls, s, Check(id)).flights {
      var l := LimitFor(ls, key).value;
      GateReadsLog(ls, steps, key, l);
      if l.value > 0 {
        var p := s.counters[key].periodStart;
        assert p <= s.now && s.now - p < (l.interval + 1) * SECOND && LogSum(s.log, key, l.unit, p) >= l.value;
      }
    }
  }

  // So a scope for which nothing was counted for an interval and one second lets every caller pass,
  // whatever was counted before.
  lemma QuietWindowAdmits(ls: Limits, steps: seq<Step>, id: nat, key: string, l: Limit)
    requires LimitFor(ls, key) == Some(l) && l.value > 0
    requires var s := Run(ls, QUIET, steps);
             && id in s.flights && NextScope(s.flights[id], key)
             && forall e :: e in s.log && e.key == key ==> s.now - e.at >= (l.interval + 1) * SECOND
    ensures var s := Run(ls, QUIET, steps); id in Next(ls, s, Check(id)).flights
  {
    var s := Run(ls, QUIET, steps);
    RefusalHasCause(ls, steps, id, key);
    if UsedUp(s, key, l) {
      var p: nat :| p <= s.now && s.now - p < (l.interval + 1) * SECOND && LogSum(s.log, key, l.unit, p) >= l.value;
      NothingSince(s.log, key, l.unit, p);
    }
  }

  // Passing moves a flight on to its next phase and changes nothing else.
  lemma CheckMovesOn(ls: Limits, s: State, id: nat, key: string)
    requires id in s.flights && NextScope(s.flights[id], key)
    ensures var t, f := Next(ls, s, Check(id)), s.flights[id];
            && t.counters == s.counters && t.log == s.log && t.now == s.now
            && (forall other :: other != id ==> (other in t.flights <==> other in s.flights)
                                                && (other in s.flights ==> t.flights[other] == s.flights[other]))
            && (id in t.flights ==>
                  t.flights[id] == Flight(f.user, f.resume, if f.phase.Started? then TenantChecked else Admitted))
  {
  }

  // Two checks with nothing in between are the gate of one caller, and two counts its settlement.
  lemma UncontendedFlight(ls: Limits, s: State, id: nat, steps: nat)
    requires id in s.flights && s.flights[id].user != TENANT
    ensures s.flights[id].phase.Started? ==>
              (id in Next(ls, Next(ls, s, Check(id)), Check(id)).flights
               <==> && !Blocked(ls.tenant, s.counters, "", s.now)
                    && !Blocked(ls.user, s.counters, s.flights[id].user, s.now))
    ensures s.flights[id].phase.Admitted? ==>
              var f := s.flights[id];
              var turns := if f.resume then 0 else 1;
              Next(ls, Next(ls, s, Record(id, steps)), Record(id, 0)).counters
              == Bump(ls.user, Bump(ls.tenant, s.counters, "", turns, steps, s.now), f.user, turns, steps, s.now)
  {
  }

  // ---- the bound is met ----

  function Arrive(c: nat, user: string): seq<Step> {
    if c == 0 then [] else Arrive(c - 1, user) + [Start(c - 1, user, false), Check(c - 1), Check(c - 1)]
  }

  function Finish(c: nat): seq<Step> {
    if c == 0 then [] else Finish(c - 1) + [Record(c - 1, 0)]
  }

  lemma {:induction false} RunAppend(ls: Limits, s: State, a: seq<Step>, b: seq<Step>)
    ensures Run(ls, s, a + b) == Run(ls, Run(ls, s, a), b)
    decreases |a|
  {
    if a == [] {
      assert a + b == b;
    } else {
      assert (a + b)[0] == a[0] && (a + b)[1..] == a[1..] + b;
      RunAppend(ls, Next(ls, s, a[0]), a[1..], b);
    }
  }

  lemma RunOne(ls: Limits, s: State, a: Step)
    ensures Run(ls, s, [a]) == Next(ls, s, a)
  {
    assert [a][1..] == [];
  }

  lemma RunThree(ls: Limits, s: State, a: Step, b: Step, d: Step)
    ensures Run(ls, s, [a, b, d]) == Next(ls, Next(ls, Next(ls, s, a), b), d)
  {
    assert [a, b, d][1..] == [b, d] && [b, d][1..] == [d];
    RunOne(ls, Next(ls, Next(ls, s, a), b), d);
  }

  ghost predicate AllAdmitted(s: State, c: nat, user: string) {
    forall id: nat :: (id in s.flights <==> id < c) && (id < c ==> s.flights[id] == Flight(user, false, Admitted))
  }

  lemma {:induction false} ArriveAdmits(ls: Limits, s: State, c: nat, user: string)
    requires user != TENANT && s.flights == map[] && ls.user == None
    requires !Blocked(ls.tenant, s.counters, TENANT, s.now)
    ensures var t := Run(ls, s, Arrive(c, user));
            t.counters == s.counters && t.now == s.now && AllAdmitted(t, c, user)
  {
    if c > 0 {
      ArriveAdmits(ls, s, c - 1, user);
      var before := Run(ls, s, Arrive(c - 1, user));
      RunAppend(ls, s, Arrive(c - 1, user), [Start(c - 1, user, false), Check(c - 1), Check(c - 1)]);
      RunThree(ls, before, Start(c - 1, user, false), Check(c - 1), Check(c - 1));
    }
  }

  lemma {:induction false} FinishCounts(ls: Limits, s: State, c: nat, n: nat, user: string, l: Limit)
    requires user != TENANT && ls == Limits(Some(l), None) && c <= n && AllAdmitted(s, n, user)
    requires TENANT in s.counters && !Elapsed(s.counters[TENANT], l.interval, s.now)
    ensures var t := Run(ls, s, Finish(c));
            && t.now == s.now && TENANT in t.counters
            && t.counters[TENANT] == s.counters[TENANT].(turns := s.counters[TENANT].turns + c)
            && (forall id: nat :: c <= id < n ==> id in t.flights && t.flights[id] == s.flights[id])
  {
    if c > 0 {
      FinishCounts(ls, s, c - 1, n, user, l);
      RunAppend(ls, s, Finish(c - 1), [Record(c - 1, 0)]);
      RunOne(ls, Run(ls, s, Finish(c - 1)), Record(c - 1, 0));
    }
  }

  // With one turn left below a tenant limit on turns, c turns that all check before any of them
  // counts bring the counter to exactly limit - 1 + c.
  lemma OvershootReached(l: Limit, s: State, c: nat, user: string)
    requires user != TENANT && l.unit == Turns && l.value >= 1 && s.flights == map[]
    requires TENANT in s.counters && s.counters[TENANT].turns == l.value - 1
    requires !Elapsed(s.counters[TENANT], l.interval, s.now)
    ensures var end := Run(Limits(Some(l), None), s, Arrive(c, user) + Finish(c));
            TENANT in end.counters && end.counters[TENANT].turns == l.value - 1 + c
  {
    var ls := Limits(Some(l), None);
    ArriveAdmits(ls, s, c, user);
    RunAppend(ls, s, Arrive(c, user), Finish(c));
    FinishCounts(ls, Run(ls, s, Arrive(c, user)), c, c, user, l);
  }

  // ---- the code of one caller ----

  datatype Decision = Allowed | Refused(scope: string, limit: Limit, used: nat)

  class Enforcer {
    var limits: Limits
    var counters: Counters

    function ScopeKeys(user: string): seq<string> { [TENANT, user] }

    // The first scope, tenant before user, whose limit is used up.
    method CheckAllowed(user: string, now: nat) returns (d: Decision)
      requires user != TENANT
      ensures d.Allowed?
            <==> !Blocked(limits.tenant, counters, TENANT, now) && !Blocked(limits.user, counters, user, now)
      ensures d.Refused? ==>
                && (d.scope == TENANT || (d.scope == user && !Blocked(limits.tenant, counters, TENANT, now)))
                && LimitFor(limits, d.scope) == Some(d.limit) && d.limit.enabled
                && d.used == EffectiveCount(counters, d.scope, d.limit, now) && d.used >= d.limit.value
    {
      var keys := ScopeKeys(user);
      var i := 0;
      while i < |keys|
        invariant 0 <= i <= |keys| && keys == [TENANT, user]
        invariant forall j :: 0 <= j < i ==> !Blocked(LimitFor(limits, keys[j]), counters, keys[j], now)
      {
        var l := LimitFor(limits, keys[i]);
        if l.Some? && l.value.enabled {
          var used := EffectiveCount(counters, keys[i], l.value, now);
          if used >= l.value.value {
            assert keys[i] == TENANT || (keys[i] == user && keys[0] == TENANT);
            return Refused(keys[i], l.value, used);
          }
        }
        i := i + 1;
      }
      assert keys[0] == TENANT && keys[1] == user;
      return Allowed;
    }

    // A limit that is configured but switched off is still counted.
    method Record(user: string, turns: nat, steps: nat, now: nat)
      requires user != TENANT
      modifies this`counters
      ensures counters
            == Bump(limits.user, Bump(limits.tenant, old(counters), TENANT, turns, steps, now), user, turns, steps, now)
    {
      var keys := ScopeKeys(user);
      var i := 0;
      while i < |keys|
        invariant 0 <= i <= |keys| && keys == [TENANT, user]
        invariant i == 0 ==> counters == old(counters)
        invariant i == 1 ==> counters == Bump(limits.tenant, old(counters), TENANT, turns, steps, now)
        invariant i == 2 ==>
              counters == Bump(limits.user, Bump(limits.tenant, old(counters), TENANT, turns, steps, now),
                                              user, turns, steps, now)
      {
        var l := LimitFor(limits, keys[i]);
        if l.Some? {
          counters := Bump(l, counters, keys[i], turns, steps, now);
        }
        i := i + 1;
      }
    }
  }
}
