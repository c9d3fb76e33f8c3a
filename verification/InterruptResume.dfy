// Resuming an interrupt: any number of concurrent callers load it, append a resume event, and race
// on one conditional update; only the winner hands the answer on to the agent.
module InterruptResume {
  import opened Prelude

  datatype Status = Pending | Resolved | Abandoned

  datatype Interrupt = Interrupt(tenant: string, session: string, status: Status, resolveEvent: Option<nat>)

  datatype Refusal = NotFound | Forbidden | Conflict

  // Event ids are positions in the log.  Phases after the append carry the caller's own event; the
  // phases after the update lead to the queue, or strand the caller.
  datatype Phase = Arrived
                 | Entered
                 | Loaded
                 | Appended(event: nat)
                 | Won(event: nat)
                 | Routed(event: nat)
                 | Opened(event: nat)
                 | Resumed(event: nat)
                 | Stranded(event: nat)
                 | Refused(why: Refusal)

  // `entry` is the schema's entry agent as the caller loaded it, before anything else.
  datatype Caller = Caller(tenant: string, schema: nat, session: string, interrupt: nat, payload: string,
                           entry: Option<nat>, phase: Phase)

  datatype ResumeEvent = ResumeEvent(caller: nat, session: string, interrupt: nat, payload: string)

  datatype SchemaKey = SchemaKey(tenant: string, id: nat)

  datatype SchemaRow = SchemaRow(chatEnabled: bool, entry: Option<nat>)

  // What the update and the queue depend on besides the interrupts: schemas, the agents registered
  // for a tenant (no entry if its registry cannot be had), open sessions, and sessions whose
  // message queue has no room.
  datatype World = World(schemas: map<SchemaKey, SchemaRow>, registry: map<string, set<nat>>,
                         sessions: set<string>, full: set<string>)

  // `abandons` holds the abandoning updates in flight, each with the interrupts that its subquery
  // found pending.
  datatype State = State(interrupts: map<nat, Interrupt>, log: seq<ResumeEvent>, queue: seq<nat>,
                         callers: map<nat, Caller>, world: World, abandons: map<nat, set<nat>>)

  // Between any two steps of a caller every other step can come, changes of the world included.
  datatype Step = Raise(id: nat, tenant: string, session: string)
                | Arrive(caller: nat, tenant: string, schema: nat, session: string, interrupt: nat, payload: string)
                | Enter(caller: nat)
                | Load(caller: nat)
                | Append(caller: nat)
                | Mark(caller: nat)
                | Route(caller: nat)
                | Open(caller: nat)
                | Enqueue(caller: nat)
                | AbandonRead(update: nat, tenant: string, session: string)
                | AbandonWrite(update: nat)
                | Change(world: World)

  // ---- the statements on the stored rows ----

  function CheckLoaded(interrupts: map<nat, Interrupt>, tenant: string, session: string, id: nat): Option<Refusal> {
    if id !in interrupts || interrupts[id].tenant != tenant then Some(NotFound)
    else if interrupts[id].session != session then Some(Forbidden)
    else if interrupts[id].status != Pending then Some(Conflict)
    else None
  }

  predicate CanMark(interrupts: map<nat, Interrupt>, tenant: string, id: nat) {
    id in interrupts && interrupts[id].tenant == tenant && interrupts[id].status == Pending
  }

  function Marked(interrupts: map<nat, Interrupt>, id: nat, event: nat): map<nat, Interrupt>
    requires id in interrupts
  {
    interrupts[id := interrupts[id].(status := Resolved, resolveEvent := Some(event))]
  }

  function AbandonedFor(interrupts: map<nat, Interrupt>, tenant: string, session: string): map<nat, Interrupt> {
    map id | id in interrupts ::
      var i := interrupts[id];
      if i.tenant == tenant && i.session == session && i.status == Pending then i.(status := Abandoned) else i
  }

  // The abandoning update tests for pending only in its subquery; its rows are written later, whatever
  // they hold by then.
  function PendingFor(interrupts: map<nat, Interrupt>, tenant: string, session: string): set<nat> {
    set id | id in interrupts && interrupts[id].tenant == tenant && interrupts[id].session == session
             && interrupts[id].status == Pending
  }

  function AbandonedAll(interrupts: map<nat, Interrupt>, ids: set<nat>): map<nat, Interrupt> {
    map id | id in interrupts :: if id in ids then interrupts[id].(status := Abandoned) else interrupts[id]
  }

  function Moved(s: State, caller: nat, phase: Phase): State
    requires caller in s.callers
  {
    s.(callers := s.callers[caller := s.callers[caller].(phase := phase)])
  }

  predicate ChatOpen(w: World, key: SchemaKey) {
    key in w.schemas && w.schemas[key].chatEnabled
  }

  // The entry agent is set, the tenant's registry can be had, and it knows the agent.
  predicate CanRoute(w: World, me: Caller) {
    me.entry.Some? && me.tenant in w.registry && me.entry.value in w.registry[me.tenant]
  }

  predicate Accepts(w: World, session: string) {
    session in w.sessions && session !in w.full
  }

  // One atomic step; a step that does not apply changes nothing.
  function Next(s: State, step: Step): State {
    match step
    case Raise(id, tenant, session) =>
      if id in s.interrupts then s
      else s.(interrupts := s.interrupts[id := Interrupt(tenant, session, Pending, None)])
    case Arrive(c, tenant, schema, session, interrupt, payload) =>
      if c in s.callers then s
      else s.(callers := s.callers[c := Caller(tenant, schema, session, interrupt, payload, None, Arrived)])
    case AbandonRead(u, tenant, session) =>
      if u in s.abandons then s
      else s.(abandons := s.abandons[u := PendingFor(s.interrupts, tenant, session)])
    case AbandonWrite(u) =>
      if u !in s.abandons then s
      else s.(interrupts := AbandonedAll(s.interrupts, s.abandons[u]), abandons := s.abandons - {u})
    case Change(world) => s.(world := world)
    case _ => if step.caller in s.callers then Act(s, step.caller, step) else s
  }

  function Act(s: State, c: nat, step: Step): State
    requires c in s.callers
  {
    var me := s.callers[c];
    match step
    case Enter(_) =>
      if me.phase != Arrived then s
      else if ChatOpen(s.world, SchemaKey(me.tenant, me.schema)) then
        s.(callers := s.callers[c := me.(phase := Entered,
            entry := s.world.schemas[SchemaKey(me.tenant, me.schema)].entry)])
      else Moved(s, c, Refused(NotFound))
    case Load(_) =>
      if me.phase != Entered then s
      else (
        match CheckLoaded(s.interrupts, me.tenant, me.session, me.interrupt)
        case Some(why) => Moved(s, c, Refused(why))
        case None => Moved(s, c, Loaded))
    case Append(_) =>
      if me.phase != Loaded then s
      else Moved(s.(log := s.log + [ResumeEvent(c, me.session, me.interrupt, me.payload)]), c, Appended(|s.log|))
    case Mark(_) =>
      if !me.phase.Appended? then s
      else if CanMark(s.interrupts, me.tenant, me.interrupt) then
        Moved(s.(interrupts := Marked(s.interrupts, me.interrupt, me.phase.event)), c, Won(me.phase.event))
      else Moved(s, c, Refused(Conflict))
    case Route(_) =>
      if !me.phase.Won? then s
      else if CanRoute(s.world, me) then Moved(s, c, Routed(me.phase.event))
      else Moved(s, c, Stranded(me.phase.event))
    case Open(_) =>
      if !me.phase.Routed? then s
      else Moved(s.(world := s.world.(sessions := s.world.sessions + {me.session})), c, Opened(me.phase.event))
    case Enqueue(_) =>
      if !me.phase.Opened? then s
      else if Accepts(s.world, me.session) then
        Moved(s.(queue := s.queue + [me.interrupt]), c, Resumed(me.phase.event))
      else Moved(s, c, Stranded(me.phase.event))
    case _ => s
  }

  function Run(s: State, steps: seq<Step>): State
    decreases |steps|
  {
    if steps == [] then s else Run(Next(s, steps[0]), steps[1..])
  }

  // ---- what every step keeps ----

  predicate HasWon(p: Phase) { p.Won? || p.Routed? || p.Opened? || p.Resumed? || p.Stranded? }

  predicate HasEvent(p: Phase) { p.Appended? || HasWon(p) }

  // The caller's event is in the log, as the caller wrote it.
  predicate EventLogged(s: State, c: nat)
    requires c in s.callers
  {
    var me := s.callers[c];
    HasEvent(me.phase) ==>
      me.phase.event < |s.log| && s.log[me.phase.event] == ResumeEvent(c, me.session, me.interrupt, me.payload)
  }

  predicate OwnsInterrupt(s: State, c: nat)
    requires c in s.callers
  {
    var me := s.callers[c];
    (me.phase.Loaded? || HasEvent(me.phase)) ==>
      && me.interrupt in s.interrupts
      && s.interrupts[me.interrupt].tenant == me.tenant && s.interrupts[me.interrupt].session == me.session
  }

  predicate Credited(s: State, c: nat)
    requires c in s.callers
  {
    var me := s.callers[c];
    HasWon(me.phase) ==> me.interrupt in s.interrupts && s.interrupts[me.interrupt].status != Pending
                         && s.interrupts[me.interrupt].resolveEvent == Some(me.phase.event)
  }

  predicate CallersSound(s: State) {
    forall c :: c in s.callers ==> EventLogged(s, c) && OwnsInterrupt(s, c) && Credited(s, c)
  }

  predicate Winner(s: State, id: nat, c: nat) {
    c in s.callers && s.callers[c].interrupt == id && HasWon(s.callers[c].phase)
  }

  predicate Answered(s: State, id: nat, c: nat) {
    Winner(s, id, c) && s.callers[c].phase.Resumed?
  }

  ghost predicate ResolvedByWinner(s: State) {
    forall id :: id in s.interrupts ==>
      && (s.interrupts[id].resolveEvent.Some? <==> exists c :: Winner(s, id, c))
      && (s.interrupts[id].status == Resolved ==> s.interrupts[id].resolveEvent.Some?)
  }

  ghost predicate QueuedByWinner(s: State) {
    && Distinct(s.queue)
    && forall id :: id in s.queue <==> exists c :: Answered(s, id, c)
  }

  ghost predicate Sound(s: State) {
    CallersSound(s) && ResolvedByWinner(s) && QueuedByWinner(s)
  }

  lemma OneWinner(s: State, id: nat, c: nat, d: nat)
    requires CallersSound(s) && Winner(s, id, c) && Winner(s, id, d)
    ensures c == d
  {
    assert Credited(s, c) && Credited(s, d) && EventLogged(s, c) && EventLogged(s, d);
  }

  // The step is one of the caller's own.
  predicate Of(step: Step, c: nat) {
    !step.Raise? && !step.Arrive? && !step.AbandonRead? && !step.AbandonWrite? && !step.Change? && step.caller == c
  }

  lemma OneLeaves(s: State, step: Step, c: nat)
    requires c in s.callers && !Of(step, c)
    ensures c in Next(s, step).callers && Next(s, step).callers[c] == s.callers[c]
  {
  }

  lemma RowsAndLogGrow(s: State, step: Step)
    ensures var t := Next(s, step);
            && |s.log| <= |t.log| && t.log[..|s.log|] == s.log
            && forall id :: id in s.interrupts ==>
                 && id in t.interrupts && t.interrupts[id].tenant == s.interrupts[id].tenant
                 && t.interrupts[id].session == s.interrupts[id].session
                 && (s.interrupts[id].status != Pending ==>
                       t.interrupts[id].status != Pending
                       && t.interrupts[id].resolveEvent == s.interrupts[id].resolveEvent)
  {
  }

  lemma OwnStepSound(s: State, step: Step, c: nat)
    requires c in s.callers && Of(step, c) && EventLogged(s, c) && OwnsInterrupt(s, c) && Credited(s, c)
    ensures c in Next(s, step).callers
    ensures EventLogged(Next(s, step), c) && OwnsInterrupt(Next(s, step), c) && Credited(Next(s, step), c)
  {
  }

  lemma OtherStepSound(s: State, step: Step, c: nat)
    requires c in s.callers && !Of(step, c) && EventLogged(s, c) && OwnsInterrupt(s, c) && Credited(s, c)
    ensures c in Next(s, step).callers
    ensures EventLogged(Next(s, step), c) && OwnsInterrupt(Next(s, step), c) && Credited(Next(s, step), c)
  {
    OneLeaves(s, step, c);
    RowsAndLogGrow(s, step);
    var me, t := s.callers[c], Next(s, step);
    if HasEvent(me.phase) { assert t.log[..|s.log|][me.phase.event] == s.log[me.phase.event]; }
  }

  lemma CallersStaySound(s: State, step: Step)
    requires CallersSound(s)
    ensures CallersSound(Next(s, step))
  {
    var t := Next(s, step);
    forall c | c in t.callers ensures EventLogged(t, c) && OwnsInterrupt(t, c) && Credited(t, c) {
      if c in s.callers {
        if Of(step, c) { OwnStepSound(s, step, c); } else { OtherStepSound(s, step, c); }
      }
    }
  }

  // Steps other than the conditional update leave the set of winners alone.
  lemma WinnersKept(s: State, step: Step, id: nat, c: nat)
    requires !step.Mark?
    ensures Winner(Next(s, step), id, c) <==> Winner(s, id, c)
  {
  }

  lemma MarkMakesWinner(s: State, caller: nat, id: nat, c: nat)
    requires caller in s.callers && s.callers[caller].phase.Appended?
    ensures var me := s.callers[caller];
            Winner(Next(s, Mark(caller)), id, c)
            <==> Winner(s, id, c) || (c == caller && id == me.interrupt && CanMark(s.interrupts, me.tenant, id))
  {
  }

  lemma ResolvedStaysByWinner(s: State, step: Step)
    requires CallersSound(s) && ResolvedByWinner(s)
    ensures ResolvedByWinner(Next(s, step))
  {
    var t := Next(s, step);
    forall id | id in t.interrupts
      ensures t.interrupts[id].resolveEvent.Some? <==> exists c :: Winner(t, id, c)
      ensures t.interrupts[id].status == Resolved ==> t.interrupts[id].resolveEvent.Some?
    {
      if step.Mark? && step.caller in s.callers && s.callers[step.caller].phase.Appended? {
        MarkKeepsResolved(s, step.caller, id);
      } else {
        forall c ensures Winner(t, id, c) <==> Winner(s, id, c) {
          if !step.Mark? { WinnersKept(s, step, id, c); }
        }
        if id !in s.interrupts {
          forall c | c in s.callers ensures !Winner(s, id, c) { assert Credited(s, c); }
        }
      }
    }
  }

  lemma MarkKeepsResolved(s: State, caller: nat, id: nat)
    requires ResolvedByWinner(s) && id in s.interrupts
    requires caller in s.callers && s.callers[caller].phase.Appended?
    ensures var t := Next(s, Mark(caller));
            && id in t.interrupts
            && (t.interrupts[id].resolveEvent.Some? <==> exists c :: Winner(t, id, c))
            && (t.interrupts[id].status == Resolved ==> t.interrupts[id].resolveEvent.Some?)
  {
    var t, me := Next(s, Mark(caller)), s.callers[caller];
    forall c ensures Winner(t, id, c)
                <==> Winner(s, id, c) || (c == caller && id == me.interrupt && CanMark(s.interrupts, me.tenant, id))
    {
      MarkMakesWinner(s, caller, id, c);
    }
    if id == me.interrupt && CanMark(s.interrupts, me.tenant, id) {
      assert Winner(t, id, caller);
    }
  }

  // The step puts its caller's interrupt on the queue.
  predicate Enqueues(s: State, step: Step) {
    step.Enqueue? && step.caller in s.callers && s.callers[step.caller].phase.Opened?
    && Accepts(s.world, s.callers[step.caller].session)
  }

  lemma AnswersKept(s: State, step: Step, id: nat, c: nat)
    requires !Enqueues(s, step)
    ensures Answered(Next(s, step), id, c) <==> Answered(s, id, c)
  {
  }

  lemma QueueStaysByWinner(s: State, step: Step)
    requires CallersSound(s) && QueuedByWinner(s)
    ensures QueuedByWinner(Next(s, step))
  {
    var t := Next(s, step);
    if Enqueues(s, step) {
      var me := s.callers[step.caller];
      if me.interrupt in s.queue {
        var c :| Answered(s, me.interrupt, c);
        OneWinner(s, me.interrupt, c, step.caller);
      }
      DistinctSnoc(s.queue, me.interrupt);
      assert Answered(t, me.interrupt, step.caller);
      forall id ensures id in t.queue <==> exists c :: Answered(t, id, c) {
        assert forall c :: Answered(t, id, c) <==> Answered(s, id, c) || (c == step.caller && id == me.interrupt);
        assert id in t.queue <==> id in s.queue || id == me.interrupt;
        if id in s.queue {
          var c :| Answered(s, id, c);
          assert Answered(t, id, c);
        }
      }
    } else {
      forall id, c ensures Answered(t, id, c) <==> Answered(s, id, c) { AnswersKept(s, step, id, c); }
    }
  }

  lemma {:induction false} RunsStaySound(s: State, steps: seq<Step>)
    requires Sound(s)
    ensures Sound(Run(s, steps))
    decreases |steps|
  {
    if steps != [] {
      CallersStaySound(s, steps[0]);
      ResolvedStaysByWinner(s, steps[0]);
      QueueStaysByWinner(s, steps[0]);
      RunsStaySound(Next(s, steps[0]), steps[1..]);
    }
  }

  // ---- what becomes of a settled interrupt ----

  // An abandoning update in flight that found the interrupt pending.
  predicate InFlight(s: State, id: nat, u: nat) { u in s.abandons && id in s.abandons[u] }

  ghost predicate Lands(s: State, steps: seq<Step>, id: nat) {
    exists u :: InFlight(s, id, u) && AbandonWrite(u) in steps
  }

  lemma SettledStep(s: State, step: Step, id: nat)
    requires id in s.interrupts && s.interrupts[id].status != Pending
    ensures var t, i := Next(s, step), s.interrupts[id];
            && id in t.interrupts
            && t.interrupts[id]
                == (if step.AbandonWrite? && InFlight(s, id, step.update) then i.(status := Abandoned) else i)
            && forall u :: InFlight(t, id, u) <==> InFlight(s, id, u) && step != AbandonWrite(u)
  {
  }

  // An interrupt that is not pending keeps its event for good, and its status exactly if no abandoning
  // update lands that had found it pending before: such an update takes a resolved one for pending
  // still.
  lemma {:induction false} SettledForGood(s: State, steps: seq<Step>, id: nat)
    requires id in s.interrupts && s.interrupts[id].status != Pending
    ensures id in Run(s, steps).interrupts
    ensures Run(s, steps).interrupts[id]
         == if Lands(s, steps, id) then s.interrupts[id].(status := Abandoned) else s.interrupts[id]
    decreases |steps|
  {
    if steps != [] {
      var t := Next(s, steps[0]);
      SettledStep(s, steps[0], id);
      SettledForGood(t, steps[1..], id);
      if u :| InFlight(s, id, u) && AbandonWrite(u) in steps {
        if steps[0] != AbandonWrite(u) { assert InFlight(t, id, u) && AbandonWrite(u) in steps[1..]; }
      }
      if Lands(t, steps[1..], id) {
        var u :| InFlight(t, id, u) && AbandonWrite(u) in steps[1..];
        assert InFlight(s, id, u) && AbandonWrite(u) in steps;
      }
    }
  }

  // With nothing in between, reading and writing are the one statement.
  lemma AbandonAlone(s: State, u: nat, tenant: string, session: string)
    requires u !in s.abandons
    ensures var t := Next(Next(s, AbandonRead(u, tenant, session)), AbandonWrite(u));
            t == s.(interrupts := AbandonedFor(s.interrupts, tenant, session))
  {
    var t := Next(Next(s, AbandonRead(u, tenant, session)), AbandonWrite(u));
    assert t.abandons == s.abandons;
  }

  // With a winner in between, the interrupt that it resolved ends abandoned.
  lemma WinnerOverwritten(s: State, c: nat, u: nat)
    requires Sound(s) && c in s.callers && s.callers[c].phase.Appended? && u !in s.abandons
    requires CanMark(s.interrupts, s.callers[c].tenant, s.callers[c].interrupt)
    ensures var me := s.callers[c];
            var t := Run(s, [AbandonRead(u, me.tenant, me.session), Mark(c), AbandonWrite(u)]);
            && Winner(t, me.interrupt, c) && me.interrupt in t.interrupts
            && t.interrupts[me.interrupt] == Interrupt(me.tenant, me.session, Abandoned, Some(me.phase.event))
  {
    var me := s.callers[c];
    assert OwnsInterrupt(s, c);
    var s1 := Next(s, AbandonRead(u, me.tenant, me.session));
    var s2 := Next(s1, Mark(c));
    RunCons(s, AbandonRead(u, me.tenant, me.session), [Mark(c), AbandonWrite(u)]);
    RunCons(s1, Mark(c), [AbandonWrite(u)]);
    RunCons(s2, AbandonWrite(u), []);
    assert [AbandonRead(u, me.tenant, me.session)] + [Mark(c), AbandonWrite(u)]
        == [AbandonRead(u, me.tenant, me.session), Mark(c), AbandonWrite(u)];
    assert [Mark(c)] + [AbandonWrite(u)] == [Mark(c), AbandonWrite(u)] && [AbandonWrite(u)] + [] == [AbandonWrite(u)];
    assert me.interrupt in s2.abandons[u];
  }

  const NOTHING := State(map[], [], [], map[], World(map[], map[], {}, {}), map[])

  // Over every interleaving of callers and of messages that abandon: no interrupt is handed on
  // twice; whoever wins it belongs to its tenant and session and appended the event recorded on it;
  // and an interrupt carries an event exactly if some caller won it, as every resolved one does.
  lemma AtMostOneResumes(steps: seq<Step>, id: nat, c: nat, d: nat)
    ensures var s := Run(NOTHING, steps);
            && Distinct(s.queue)
            && (Winner(s, id, c) && Winner(s, id, d) ==> c == d)
            && (Winner(s, id, c) ==>
                  var me := s.callers[c];
                  && id in s.interrupts && s.interrupts[id].status != Pending
                  && s.interrupts[id]
                      == Interrupt(me.tenant, me.session, s.interrupts[id].status, Some(me.phase.event))
                  && me.phase.event < |s.log|
                  && s.log[me.phase.event] == ResumeEvent(c, me.session, id, me.payload))
            && (id in s.interrupts ==>
                  && (s.interrupts[id].resolveEvent.Some? <==> exists w :: Winner(s, id, w))
                  && (s.interrupts[id].status == Resolved ==> s.interrupts[id].resolveEvent.Some?))
            && (id in s.queue ==> exists w :: Answered(s, id, w))
  {
    RunsStaySound(NOTHING, steps);
    var s := Run(NOTHING, steps);
    if Winner(s, id, c) {
      assert EventLogged(s, c) && OwnsInterrupt(s, c) && Credited(s, c);
      if Winner(s, id, d) { OneWinner(s, id, c, d); }
    }
  }

  // ---- who reaches the agent ----

  // Steps of other callers and of the world.
  predicate Others(steps: seq<Step>, c: nat) {
    forall step :: step in steps ==> !Of(step, c)
  }

  lemma {:induction false} OthersLeave(s: State, steps: seq<Step>, c: nat)
    requires c in s.callers && Others(steps, c)
    ensures c in Run(s, steps).callers && Run(s, steps).callers[c] == s.callers[c]
    decreases |steps|
  {
    if steps != [] {
      assert steps[0] in steps;
      OneLeaves(s, steps[0], c);
      OthersLeave(Next(s, steps[0]), steps[1..], c);
    }
  }

  lemma RouteDoes(s: State, c: nat)
    requires c in s.callers && s.callers[c].phase.Won?
    ensures var me := s.callers[c];
            Next(s, Route(c))
                == Moved(s, c, if CanRoute(s.world, me) then Routed(me.phase.event) else Stranded(me.phase.event))
  {
  }

  lemma OpenDoes(s: State, c: nat)
    requires c in s.callers && (s.callers[c].phase.Routed? || s.callers[c].phase.Stranded?)
    ensures var me, t := s.callers[c], Next(s, Open(c));
            c in t.callers
            && t.callers[c] == if me.phase.Routed? then me.(phase := Opened(me.phase.event)) else me
  {
  }

  lemma EnqueueDoes(s: State, c: nat)
    requires c in s.callers && (s.callers[c].phase.Opened? || s.callers[c].phase.Stranded?)
    ensures var me, t := s.callers[c], Next(s, Enqueue(c));
            c in t.callers && t.callers[c].interrupt == me.interrupt && HasWon(t.callers[c].phase)
            && (t.callers[c].phase.Resumed? <==> me.phase.Opened? && Accepts(s.world, me.session))
  {
  }

  ghost function Finished(s: State, c: nat, a: seq<Step>, b: seq<Step>, d: seq<Step>): State {
    Next(Run(Next(Run(Next(Run(s, a), Route(c)), b), Open(c)), d), Enqueue(c))
  }

  lemma FinishedSound(s: State, c: nat, a: seq<Step>, b: seq<Step>, d: seq<Step>)
    requires Sound(s)
    ensures Sound(Finished(s, c, a, b, d))
  {
    var s1 := Run(s, a);
    RunsStaySound(s, a);
    SoundStep(s1, Route(c));
    var s2 := Run(Next(s1, Route(c)), b);
    RunsStaySound(Next(s1, Route(c)), b);
    SoundStep(s2, Open(c));
    RunsStaySound(Next(s2, Open(c)), d);
    SoundStep(Run(Next(s2, Open(c)), d), Enqueue(c));
  }

  lemma FinishedPhase(s: State, c: nat, a: seq<Step>, b: seq<Step>, d: seq<Step>)
    requires c in s.callers && s.callers[c].phase.Won? && Others(a, c) && Others(b, c) && Others(d, c)
    ensures var me, s1 := s.callers[c], Run(s, a);
            var s3, t := Run(Next(Run(Next(s1, Route(c)), b), Open(c)), d), Finished(s, c, a, b, d);
            && c in t.callers && t.callers[c].interrupt == me.interrupt && HasWon(t.callers[c].phase)
            && (t.callers[c].phase.Resumed? <==> CanRoute(s1.world, me) && Accepts(s3.world, me.session))
  {
    var s1 := Run(s, a);
    OthersLeave(s, a, c);
    RouteDoes(s1, c);
    var r1 := Next(s1, Route(c));
    OthersLeave(r1, b, c);
    var s2 := Run(r1, b);
    OpenDoes(s2, c);
    var r2 := Next(s2, Open(c));
    OthersLeave(r2, d, c);
    EnqueueDoes(Run(r2, d), c);
  }

  // A caller that won reaches the queue, whatever comes between its steps, exactly if its entry
  // agent is set and registered when it looks the agent up, and its session is open with room in
  // its queue when it hands the answer on.
  lemma WinnerResumesIff(s: State, c: nat, a: seq<Step>, b: seq<Step>, d: seq<Step>)
    requires Sound(s) && c in s.callers && s.callers[c].phase.Won?
    requires Others(a, c) && Others(b, c) && Others(d, c)
    ensures var me, s1 := s.callers[c], Run(s, a);
            var s3 := Run(Next(Run(Next(s1, Route(c)), b), Open(c)), d);
            me.interrupt in Finished(s, c, a, b, d).queue
            <==> && me.entry.Some? && me.tenant in s1.world.registry && me.entry.value in s1.world.registry[me.tenant]
                 && me.session in s3.world.sessions && me.session !in s3.world.full
  {
    FinishedSound(s, c, a, b, d);
    FinishedPhase(s, c, a, b, d);
    QueuedIfResumed(Finished(s, c, a, b, d), c);
  }

  lemma QueuedIfResumed(s: State, c: nat)
    requires Sound(s) && c in s.callers && HasWon(s.callers[c].phase)
    ensures s.callers[c].interrupt in s.queue <==> s.callers[c].phase.Resumed?
  {
    var id := s.callers[c].interrupt;
    assert Winner(s, id, c);
    if s.callers[c].phase.Resumed? { assert Answered(s, id, c); }
    if id in s.queue {
      var d :| Answered(s, id, d);
      OneWinner(s, id, c, d);
    }
  }

  lemma SoundStep(s: State, step: Step)
    requires Sound(s)
    ensures Sound(Next(s, step))
  {
    CallersStaySound(s, step);
    ResolvedStaysByWinner(s, step);
    QueueStaysByWinner(s, step);
  }

  // ---- a caller's whole way ----

  lemma {:induction false} RefusedForGood(s: State, steps: seq<Step>, c: nat)
    requires c in s.callers && s.callers[c].phase.Refused?
    ensures c in Run(s, steps).callers && Run(s, steps).callers[c] == s.callers[c]
    decreases |steps|
  {
    if steps != [] { RefusedForGood(Next(s, steps[0]), steps[1..], c); }
  }

  function Own(c: nat): seq<Step> {
    [Enter(c), Load(c), Append(c), Mark(c), Route(c), Open(c), Enqueue(c)]
  }

  // The state before the caller's own k-th step, with any steps of others before it and in between.
  function Ahead(s: State, c: nat, gaps: seq<seq<Step>>, k: nat): State
    requires |gaps| == 7 && k < 7
  {
    Run(if k == 0 then s else Next(Ahead(s, c, gaps, k - 1), Own(c)[k - 1]), gaps[k])
  }

  ghost predicate FromArrival(s: State, c: nat, gaps: seq<seq<Step>>) {
    c in s.callers && s.callers[c].phase == Arrived && |gaps| == 7 && forall k :: 0 <= k < 7 ==> Others(gaps[k], c)
  }

  lemma EnterDoes(s: State, c: nat)
    requires c in s.callers && s.callers[c].phase == Arrived
    ensures var me, t := s.callers[c], Next(s, Enter(c));
            c in t.callers
            && t.callers[c] == if ChatOpen(s.world, SchemaKey(me.tenant, me.schema)) then
                                 me.(phase := Entered, entry := s.world.schemas[SchemaKey(me.tenant, me.schema)].entry)
                               else me.(phase := Refused(NotFound))
  {
  }

  lemma LoadDoes(s: State, c: nat)
    requires c in s.callers && s.callers[c].phase == Entered
    ensures var me, t := s.callers[c], Next(s, Load(c));
            && c in t.callers && t.callers[c] == me.(phase := t.callers[c].phase)
            && (t.callers[c].phase.Loaded? || t.callers[c].phase.Refused?)
            && (t.callers[c].phase.Loaded? <==> CheckLoaded(s.interrupts, me.tenant, me.session, me.interrupt) == None)
  {
  }

  lemma AppendDoes(s: State, c: nat)
    requires c in s.callers && s.callers[c].phase == Loaded
    ensures var me, t := s.callers[c], Next(s, Append(c));
            c in t.callers && t.callers[c] == me.(phase := Appended(|s.log|))
  {
  }

  lemma MarkDoes(s: State, c: nat)
    requires c in s.callers && s.callers[c].phase.Appended?
    ensures var me, t := s.callers[c], Next(s, Mark(c));
            && c in t.callers && t.callers[c] == me.(phase := t.callers[c].phase)
            && (t.callers[c].phase.Won? || t.callers[c].phase.Refused?)
            && (t.callers[c].phase.Won? <==> CanMark(s.interrupts, me.tenant, me.interrupt))
  {
  }

  lemma EntersOrNot(s: State, c: nat, gaps: seq<seq<Step>>)
    requires FromArrival(s, c, gaps)
    ensures var me, w, t := s.callers[c], Ahead(s, c, gaps, 0).world, Ahead(s, c, gaps, 1);
            c in t.callers
            && t.callers[c] == if ChatOpen(w, SchemaKey(me.tenant, me.schema)) then
                                 me.(phase := Entered, entry := w.schemas[SchemaKey(me.tenant, me.schema)].entry)
                               else me.(phase := Refused(NotFound))
  {
    OthersLeave(s, gaps[0], c);
    EnterDoes(Ahead(s, c, gaps, 0), c);
    OthersLeave(Next(Ahead(s, c, gaps, 0), Enter(c)), gaps[1], c);
  }

  lemma LoadsOrNot(s: State, c: nat, gaps: seq<seq<Step>>)
    requires FromArrival(s, c, gaps)
    ensures var me, t := s.callers[c], Ahead(s, c, gaps, 3);
            var live := ChatOpen(Ahead(s, c, gaps, 0).world, SchemaKey(me.tenant, me.schema))
                        && CheckLoaded(Ahead(s, c, gaps, 1).interrupts, me.tenant, me.session, me.interrupt) == None;
            && c in t.callers && c in Ahead(s, c, gaps, 1).callers
            && t.callers[c] == Ahead(s, c, gaps, 1).callers[c].(phase := t.callers[c].phase)
            && (live ==> t.callers[c].phase.Appended?) && (!live ==> t.callers[c].phase.Refused?)
  {
    EntersOrNot(s, c, gaps);
    var s1, s2 := Ahead(s, c, gaps, 1), Ahead(s, c, gaps, 2);
    if s1.callers[c].phase.Refused? {
      assert Ahead(s, c, gaps, 2) == Run(Next(s1, Load(c)), gaps[2]);
      RefusedForGood(s1, [Load(c)] + gaps[2], c);
      RunCons(s1, Load(c), gaps[2]);
      RefusedForGood(s2, [Append(c)] + gaps[3], c);
      RunCons(s2, Append(c), gaps[3]);
    } else {
      LoadDoes(s1, c);
      OthersLeave(Next(s1, Load(c)), gaps[2], c);
      if s2.callers[c].phase.Refused? {
        RefusedForGood(s2, [Append(c)] + gaps[3], c);
        RunCons(s2, Append(c), gaps[3]);
      } else {
        AppendDoes(s2, c);
        OthersLeave(Next(s2, Append(c)), gaps[3], c);
      }
    }
  }

  // Whatever comes between its steps, a caller's answer reaches the queue exactly if: its schema is there
  // with chat switched on and an entry agent when it enters; the interrupt is its tenant's and session's
  // and pending when it loads it, and still pending at its update; the agent is registered for the
  // tenant when it looks it up; and the session is open with room in its queue at the end.
  lemma AnsweredExactly(s: State, c: nat, gaps: seq<seq<Step>>)
    requires FromArrival(s, c, gaps)
    ensures var me := s.callers[c];
            var key, entering, loading, marking := SchemaKey(me.tenant, me.schema), Ahead(s, c, gaps, 0).world.schemas,
                Ahead(s, c, gaps, 1).interrupts, Ahead(s, c, gaps, 3).interrupts;
            var routing, ending := Ahead(s, c, gaps, 4).world.registry, Ahead(s, c, gaps, 6).world;
            Answered(Next(Ahead(s, c, gaps, 6), Enqueue(c)), me.interrupt, c) <==>
              && key in entering && entering[key].chatEnabled && entering[key].entry.Some?
              && me.interrupt in loading && loading[me.interrupt] == Interrupt(me.tenant, me.session, Pending,
                                                                               loading[me.interrupt].resolveEvent)
              && me.interrupt in marking && marking[me.interrupt].tenant == me.tenant
              && marking[me.interrupt].status == Pending
              && me.tenant in routing && entering[key].entry.value in routing[me.tenant]
              && me.session in ending.sessions && me.session !in ending.full
  {
    EntersOrNot(s, c, gaps);
    LoadsOrNot(s, c, gaps);
    var s3 := Ahead(s, c, gaps, 3);
    if s3.callers[c].phase.Refused? {
      StaysRefused(s3, c, gaps);
    } else {
      MarkDoes(s3, c);
      var s4 := Next(s3, Mark(c));
      if s4.callers[c].phase.Refused? {
        StaysRefused(s3, c, gaps);
      } else {
        FinishedPhase(s4, c, gaps[4], gaps[5], gaps[6]);
      }
    }
  }

  lemma StaysRefused(s: State, c: nat, gaps: seq<seq<Step>>)
    requires |gaps| == 7 && c in Next(s, Mark(c)).callers && Next(s, Mark(c)).callers[c].phase.Refused?
    ensures var t := Finished(Next(s, Mark(c)), c, gaps[4], gaps[5], gaps[6]);
            c in t.callers && t.callers[c].phase.Refused?
  {
    var r := Next(s, Mark(c));
    RefusedForGood(r, gaps[4], c);
    var s1 := Run(r, gaps[4]);
    RefusedForGood(s1, [Route(c)] + gaps[5], c);
    RunCons(s1, Route(c), gaps[5]);
    var s2 := Run(Next(s1, Route(c)), gaps[5]);
    RefusedForGood(s2, [Open(c)] + gaps[6], c);
    RunCons(s2, Open(c), gaps[6]);
    var s3 := Run(Next(s2, Open(c)), gaps[6]);
    RefusedForGood(s3, [Enqueue(c)] + [], c);
    RunCons(s3, Enqueue(c), []);
  }

  lemma StrandedStays(s: State, c: nat, step: Step)
    requires c in s.callers && s.callers[c].phase.Stranded?
    ensures c in Next(s, step).callers && Next(s, step).callers[c] == s.callers[c]
  {
  }

  // At most once is not exactly once: a winner stranded after the update leaves an interrupt that
  // is resolved, that nobody may resume again, and that never reaches the agent.
  lemma {:induction false} StrandedForGood(s: State, c: nat, steps: seq<Step>)
    requires Sound(s) && c in s.callers && s.callers[c].phase.Stranded?
    ensures s.callers[c].interrupt !in Run(s, steps).queue
    decreases |steps|
  {
    if steps == [] {
      QueuedIfResumed(s, c);
    } else {
      SoundStep(s, steps[0]);
      StrandedStays(s, c, steps[0]);
      StrandedForGood(Next(s, steps[0]), c, steps[1..]);
    }
  }

  // A caller whose schema had no entry agent when it entered can still win the interrupt, and then
  // no run hands it on; the guard was readable before the update.
  lemma {:induction false} NoEntryIsDoomed(s: State, c: nat, steps: seq<Step>)
    requires Sound(s) && c in s.callers && s.callers[c].entry == None
    requires !(s.callers[c].phase in {Arrived}) && !Past(s.callers[c].phase)
    ensures var t, id := Run(s, steps), s.callers[c].interrupt;
            c in t.callers && t.callers[c].interrupt == id && (HasWon(t.callers[c].phase) ==> id !in t.queue)
    decreases |steps|
  {
    if steps == [] {
      if HasWon(s.callers[c].phase) { QueuedIfResumed(s, c); }
    } else {
      SoundStep(s, steps[0]);
      NoEntryStep(s, c, steps[0]);
      NoEntryIsDoomed(Next(s, steps[0]), c, steps[1..]);
    }
  }

  predicate Past(p: Phase) { p.Routed? || p.Opened? || p.Resumed? }

  lemma NoEntryStep(s: State, c: nat, step: Step)
    requires c in s.callers && s.callers[c].entry == None
    requires s.callers[c].phase != Arrived && !Past(s.callers[c].phase)
    ensures var t := Next(s, step);
            && c in t.callers && t.callers[c].entry == None && t.callers[c].interrupt == s.callers[c].interrupt
            && t.callers[c].phase != Arrived && !Past(t.callers[c].phase)
  {
  }

  lemma RunCons(s: State, step: Step, rest: seq<Step>)
    ensures Run(s, [step] + rest) == Run(Next(s, step), rest)
  {
    assert ([step] + rest)[1..] == rest;
  }

  function NoEntryWorld(t: string): World {
    World(map[SchemaKey(t, 0) := SchemaRow(true, None)], map[], {}, {})
  }

  function Arrival(t: string, session: string, payload: string): seq<Step> {
    [Change(NoEntryWorld(t)), Raise(0, t, session), Arrive(0, t, 0, session, 0, payload), Enter(0)]
  }

  const FINISH := [Load(0), Append(0), Mark(0), Route(0)]

  function ArrivedState(t: string, session: string, payload: string): State {
    State(map[0 := Interrupt(t, session, Pending, None)], [], [],
          map[0 := Caller(t, 0, session, 0, payload, None, Entered)], NoEntryWorld(t), map[])
  }

  lemma ArrivalRun(t: string, session: string, payload: string)
    ensures Run(NOTHING, Arrival(t, session, payload)) == ArrivedState(t, session, payload)
  {
    RunFour(NOTHING, Change(NoEntryWorld(t)), Raise(0, t, session), Arrive(0, t, 0, session, 0, payload), Enter(0));
  }

  lemma FinishRun(t: string, session: string, payload: string)
    ensures var s := Run(ArrivedState(t, session, payload), FINISH);
            && 0 in s.interrupts && s.interrupts[0] == Interrupt(t, session, Resolved, Some(0))
            && 0 in s.callers && s.callers[0].phase == Stranded(0) && s.queue == []
  {
    RunFour(ArrivedState(t, session, payload), Load(0), Append(0), Mark(0), Route(0));
  }

  // From nothing: a schema without entry agent, one interrupt, one caller; the interrupt ends
  // resolved, its caller stranded, and no answer is queued.
  lemma StrandedRun(t: string, session: string, payload: string)
    ensures var s := Run(NOTHING, Arrival(t, session, payload) + FINISH);
            && 0 in s.interrupts && s.interrupts[0] == Interrupt(t, session, Resolved, Some(0))
            && 0 in s.callers && s.callers[0].phase == Stranded(0) && s.queue == []
  {
    RunAppend(NOTHING, Arrival(t, session, payload), FINISH);
    ArrivalRun(t, session, payload);
    FinishRun(t, session, payload);
  }

  lemma RunFour(s: State, a: Step, b: Step, c: Step, d: Step)
    ensures Run(s, [a, b, c, d]) == Next(Next(Next(Next(s, a), b), c), d)
  {
    var s1 := Next(s, a);
    var s2 := Next(s1, b);
    var s3 := Next(s2, c);
    RunCons(s, a, [b, c, d]);
    RunCons(s1, b, [c, d]);
    RunCons(s2, c, [d]);
    RunCons(s3, d, []);
    assert [a] + [b, c, d] == [a, b, c, d] && [b] + [c, d] == [b, c, d] && [c] + [d] == [c, d] && [d] + [] == [d];
  }

  lemma {:induction false} RunAppend(s: State, a: seq<Step>, b: seq<Step>)
    ensures Run(s, a + b) == Run(Run(s, a), b)
    decreases |a|
  {
    if a == [] {
      assert a + b == b;
    } else {
      assert (a + b)[0] == a[0] && (a + b)[1..] == a[1..] + b;
      RunAppend(Next(s, a[0]), a[1..], b);
    }
  }

  // ---- the code of one caller ----

  class InterruptStore {
    var interrupts: map<nat, Interrupt>
    var log: seq<ResumeEvent>
    var queue: seq<nat>
    var world: World

    method MarkResolved(tenant: string, id: nat, event: nat) returns (resolved: bool)
      modifies this`interrupts
      ensures resolved == CanMark(old(interrupts), tenant, id)
      ensures interrupts == if resolved then Marked(old(interrupts), id, event) else old(interrupts)
    {
      if !CanMark(interrupts, tenant, id) { return false; }
      interrupts := interrupts[id := interrupts[id].(status := Resolved, resolveEvent := Some(event))];
      return true;
    }

    method MarkAbandonedForSession(tenant: string, session: string)
      modifies this`interrupts
      ensures interrupts == AbandonedFor(old(interrupts), tenant, session)
    {
      ghost var was := interrupts;
      var ids := interrupts.Keys;
      while ids != {}
        invariant ids <= interrupts.Keys == was.Keys
        invariant forall id :: id in was ==>
              interrupts[id] == if id in ids then was[id] else AbandonedFor(was, tenant, session)[id]
        decreases ids
      {
        var id :| id in ids;
        ids := ids - {id};
        var i := interrupts[id];
        if i.tenant == tenant && i.session == session && i.status == Pending {
          interrupts := interrupts[id := i.(status := Abandoned)];
        }
      }
      assert interrupts == AbandonedFor(was, tenant, session);
    }

    // A caller that nothing overtakes.  The last three errors come after the update.
    method ResumeInterrupt(caller: nat, tenant: string, schema: nat, session: string, id: nat, payload: string)
      returns (error: Option<ResumeError>)
      modifies this
      ensures Early(old(world), old(interrupts), tenant, schema, session, id).Some? ==>
                && error == Some(Before(Early(old(world), old(interrupts), tenant, schema, session, id).value))
                && interrupts == old(interrupts) && log == old(log) && queue == old(queue) && world == old(world)
      ensures Early(old(world), old(interrupts), tenant, schema, session, id).None? ==>
                && interrupts == Marked(old(interrupts), id, |old(log)|)
                && log == old(log) + [ResumeEvent(caller, session, id, payload)]
                && var entry := old(world).schemas[SchemaKey(tenant, schema)].entry;
                   var routed := entry.Some? && tenant in old(world).registry
                       && entry.value in old(world).registry[tenant];
                   && queue == (if routed && session !in old(world).full then old(queue) + [id] else old(queue))
                   && error == (if entry.None? then Some(NoEntryAgent)
                                else if !routed then Some(AgentUnavailable)
                                else if session in old(world).full then Some(QueueRefused)
                                else None)
    {
      if !ChatOpen(world, SchemaKey(tenant, schema)) { return Some(Before(NotFound)); }
      var entry := world.schemas[SchemaKey(tenant, schema)].entry;
      var refusal := CheckLoaded(interrupts, tenant, session, id);
      if refusal.Some? { return Some(Before(refusal.value)); }
      var event := |log|;
      log := log + [ResumeEvent(caller, session, id, payload)];
      var resolved := MarkResolved(tenant, id, event);
      if !resolved { return Some(Before(Conflict)); }
      if entry.None? { return Some(NoEntryAgent); }
      if tenant !in world.registry || entry.value !in world.registry[tenant] { return Some(AgentUnavailable); }
      if session !in world.sessions {
        world := world.(sessions := world.sessions + {session});
      }
      if session in world.full { return Some(QueueRefused); }
      queue := queue + [id];
      return None;
    }
  }

  datatype ResumeError = Before(why: Refusal) | NoEntryAgent | AgentUnavailable | QueueRefused

  // The refusals that come before the update and change nothing.
  function Early(w: World, interrupts: map<nat, Interrupt>, tenant: string, schema: nat, session: string,
                 id: nat): Option<Refusal> {
    if !ChatOpen(w, SchemaKey(tenant, schema)) then Some(NotFound) else CheckLoaded(interrupts, tenant, session, id)
  }

  // Another tenant's interrupt is refused like a missing one, whatever else is wrong with it; the session
  // and the status of one's own are told.
  lemma ForeignLooksMissing(w: World, interrupts: map<nat, Interrupt>, tenant: string, schema: nat, session: string,
                            id: nat)
    requires id in interrupts && ChatOpen(w, SchemaKey(tenant, schema))
    ensures interrupts[id].tenant != tenant ==>
              Early(w, interrupts, tenant, schema, session, id) == Early(w, map[], tenant, schema, session, id)
              == Some(NotFound)
    ensures interrupts[id].tenant == tenant ==>
              Early(w, interrupts, tenant, schema, session, id)
              == if interrupts[id].session != session then Some(Forbidden)
                 else if interrupts[id].status != Pending then Some(Conflict)
                 else None
  {
  }
}
