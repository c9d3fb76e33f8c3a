// Steps counted per session while a turn runs, and billed or dropped when it ends: what a bill
// contains, and where every counted step goes.
module StepAccounting {
  import opened Prelude

  // ---- the accumulator ----

  datatype Op = Begin(session: string) | Inc(session: string) | Take(session: string) | Discard(session: string) | Idle

  type Counts = map<string, nat>

  function Pending(counts: Counts, session: string): nat {
    if session in counts then counts[session] else 0
  }

  // Sessions are named; the empty id is never registered.
  function Do(counts: Counts, op: Op): Counts {
    match op
    case Begin(s) => if s == "" then counts else counts[s := 0]
    case Inc(s) => if s in counts && s != "" then counts[s := counts[s] + 1] else counts
    case Take(s) => counts - {s}
    case Discard(s) => if s == "" then counts else counts - {s}
    case Idle => counts
  }

  class StepAccumulator {
    var counts: Counts

    constructor ()
      ensures counts == map[]
    {
      counts := map[];
    }

    method BeginSession(session: string)
      modifies this
      ensures counts == Do(old(counts), Begin(session))
    {
      if session == "" { return; }
      counts := counts[session := 0];
    }

    method IncSession(session: string)
      modifies this
      ensures counts == Do(old(counts), Inc(session))
    {
      if session == "" { return; }
      if session in counts {
        counts := counts[session := counts[session] + 1];
      }
    }

    method TakeSession(session: string) returns (n: nat)
      modifies this
      ensures counts == Do(old(counts), Take(session)) && n == Pending(old(counts), session)
    {
      n := if session in counts then counts[session] else 0;
      counts := counts - {session};
    }

    method DiscardSession(session: string)
      modifies this
      ensures counts == Do(old(counts), Discard(session))
    {
      if session == "" { return; }
      counts := counts - {session};
    }
  }

  // ---- the turns that drive it ----

  // Turns run on the user's own model key are neither registered nor settled.  A turn whose message
  // cannot be queued ends after it was registered, without being settled.
  datatype Event = Opened(session: string, byok: bool)
                 | AgentStep(session: string)
                 | ClosedTurn(session: string, byok: bool, billable: bool)
                 | ClosedResume(session: string, byok: bool)
                 | QueueFailed(session: string)

  datatype Bill = Bill(turns: nat, steps: nat)

  function OpOf(e: Event): Op {
    match e
    case Opened(s, byok) => if byok then Idle else Begin(s)
    case AgentStep(s) => Inc(s)
    case ClosedTurn(s, byok, billable) => if byok then Idle else if billable then Take(s) else Discard(s)
    case ClosedResume(s, byok) => if byok then Idle else Take(s)
    case QueueFailed(s) => Idle
  }

  function BillOf(counts: Counts, e: Event): Option<Bill> {
    match e
    case ClosedTurn(s, byok, billable) => if byok || !billable then None else Some(Bill(1, Pending(counts, s)))
    case ClosedResume(s, byok) => if byok || Pending(counts, s) == 0 then None else Some(Bill(0, Pending(counts, s)))
    case _ => None
  }

  function CountsAfter(events: seq<Event>): Counts {
    if events == [] then map[] else Do(CountsAfter(events[..|events| - 1]), OpOf(events[|events| - 1]))
  }

  // An event that opens, bills or drops the session's count.
  predicate Marks(e: Event, session: string) {
    OpOf(e) == Begin(session) || OpOf(e) == Take(session) || OpOf(e) == Discard(session)
  }

  function StepsIn(events: seq<Event>, session: string): nat {
    if events == [] then 0
    else StepsIn(events[..|events| - 1], session) + if events[|events| - 1] == AgentStep(session) then 1 else 0
  }

  // The session's own count, read off the history: the agent steps since the last mark if that
  // mark opened the session, and nothing otherwise.
  ghost predicate OwnSteps(events: seq<Event>, session: string, n: nat) {
    (exists b :: LastMark(events, session, b) && OpOf(events[b]).Begin? && n == StepsIn(events[b + 1..], session))
    || (n == 0 && forall b :: LastMark(events, session, b) ==> !OpOf(events[b]).Begin?)
  }

  ghost predicate LastMark(events: seq<Event>, session: string, b: int) {
    0 <= b < |events| && Marks(events[b], session) && forall i :: b < i < |events| ==> !Marks(events[i], session)
  }

  lemma LastMarkSnoc(events: seq<Event>, e: Event, session: string, b: int)
    ensures LastMark(events + [e], session, b)
       <==> if Marks(e, session) then b == |events| else LastMark(events, session, b)
  {
    var all := events + [e];
    assert all[|events|] == e;
    assert Marks(e, session) && LastMark(all, session, b) ==> b == |events|;
    if !Marks(e, session) && LastMark(events, session, b) {
      assert forall i :: b < i < |all| ==> !Marks(all[i], session);
    }
    if !Marks(e, session) && LastMark(all, session, b) {
      assert forall i :: b < i < |events| ==> events[i] == all[i];
    }
  }

  lemma StepsSnoc(events: seq<Event>, e: Event, session: string)
    ensures StepsIn(events + [e], session) == StepsIn(events, session) + if e == AgentStep(session) then 1 else 0
  {
    assert (events + [e])[..|events|] == events;
  }

  lemma RegisteredSinceMark(events: seq<Event>, session: string)
    requires session != ""
    ensures session in CountsAfter(events) <==> exists b :: LastMark(events, session, b) && OpOf(events[b]).Begin?
  {
    if events != [] {
      var before, e := events[..|events| - 1], events[|events| - 1];
      assert events == before + [e];
      RegisteredSinceMark(before, session);
      forall b ensures LastMark(events, session, b)
                  <==> if Marks(e, session) then b == |before| else LastMark(before, session, b)
      {
        LastMarkSnoc(before, e, session, b);
      }
      if session in CountsAfter(before) && !Marks(e, session) {
        var b :| LastMark(before, session, b) && OpOf(before[b]).Begin?;
        assert LastMark(events, session, b) && events[b] == before[b];
      }
      if OpOf(e) == Begin(session) { assert LastMark(events, session, |before|); }
    }
  }

  // One more event: it opens the session at zero, or leaves it open and adds its step.
  lemma CountOneMore(before: seq<Event>, e: Event, session: string)
    requires session != ""
    ensures OpOf(e) == Begin(session) ==> Do(CountsAfter(before), OpOf(e)) == CountsAfter(before)[session := 0]
    ensures !Marks(e, session) && session in CountsAfter(before) ==>
              var counts := Do(CountsAfter(before), OpOf(e));
              session in counts
              && counts[session] == CountsAfter(before)[session] + if e == AgentStep(session) then 1 else 0
  {
  }

  lemma {:induction false} CountSinceMark(events: seq<Event>, session: string, b: int)
    requires session != "" && LastMark(events, session, b) && OpOf(events[b]).Begin?
    ensures session in CountsAfter(events) && CountsAfter(events)[session] == StepsIn(events[b + 1..], session)
    decreases |events|
  {
    var before, e := events[..|events| - 1], events[|events| - 1];
    CountOneMore(before, e, session);
    if b < |before| {
      assert events == before + [e];
      LastMarkSnoc(before, e, session, b);
      CountSinceMark(before, session, b);
      assert events[b + 1..] == before[b + 1..] + [e];
      StepsSnoc(before[b + 1..], e, session);
    } else {
      assert events[b + 1..] == [];
    }
  }

  // What a turn or resume is billed, whatever else runs on other sessions or on this one, is the
  // steps taken on its session since that session was last opened, if it was not settled since.  So
  // steps dropped or billed before, and steps before the opening, are never billed.
  lemma BillIsOwnSteps(events: seq<Event>, session: string)
    requires session != ""
    ensures OwnSteps(events, session, Pending(CountsAfter(events), session))
  {
    RegisteredSinceMark(events, session);
    if b :| LastMark(events, session, b) && OpOf(events[b]).Begin? {
      CountSinceMark(events, session, b);
    }
  }

  // ---- where every counted step goes ----

  function Counted(events: seq<Event>, session: string): nat {
    if events == [] then 0
    else
      var before, e := events[..|events| - 1], events[|events| - 1];
      Counted(before, session) + if e == AgentStep(session) && session in CountsAfter(before) then 1 else 0
  }

  function Billed(events: seq<Event>, session: string): nat {
    if events == [] then 0
    else
      var before, e := events[..|events| - 1], events[|events| - 1];
      Billed(before, session)
      + match BillOf(CountsAfter(before), e)
        case Some(bill) => if e.session == session then bill.steps else 0
        case None => 0
  }

  function Dropped(events: seq<Event>, session: string): nat {
    if events == [] then 0
    else
      var before, e := events[..|events| - 1], events[|events| - 1];
      Dropped(before, session) + if OpOf(e) == Discard(session) then Pending(CountsAfter(before), session) else 0
  }

  // Steps wiped out because the session was opened again before it was settled.
  function Overwritten(events: seq<Event>, session: string): nat {
    if events == [] then 0
    else
      var before, e := events[..|events| - 1], events[|events| - 1];
      Overwritten(before, session) + if OpOf(e) == Begin(session) then Pending(CountsAfter(before), session) else 0
  }

  lemma {:induction false} EmptyIdNeverRegistered(events: seq<Event>)
    ensures "" !in CountsAfter(events)
  {
    if events != [] { EmptyIdNeverRegistered(events[..|events| - 1]); }
  }

  lemma {:induction false} StepsConserved(events: seq<Event>, session: string)
    ensures Counted(events, session)
         == Billed(events, session) + Dropped(events, session) + Overwritten(events, session)
            + Pending(CountsAfter(events), session)
  {
    EmptyIdNeverRegistered(events);
    if events != [] {
      StepsConserved(events[..|events| - 1], session);
      EmptyIdNeverRegistered(events[..|events| - 1]);
    }
  }

  function TurnsOf(counts: Counts, e: Event, session: string): nat {
    match BillOf(counts, e)
    case Some(bill) => if e.session == session then bill.turns else 0
    case None => 0
  }

  function TurnsBilled(events: seq<Event>, session: string): nat {
    if events == [] then 0
    else
      var before := events[..|events| - 1];
      TurnsBilled(before, session) + TurnsOf(CountsAfter(before), events[|events| - 1], session)
  }

  lemma {:induction false} QuietBills(before: seq<Event>, during: seq<Event>, session: string)
    requires Quiet(during, session)
    ensures Billed(before + during, session) == Billed(before, session)
    ensures TurnsBilled(before + during, session) == TurnsBilled(before, session)
    decreases |during|
  {
    if during == [] {
      assert before + during == before;
    } else {
      var n := |during| - 1;
      QuietBills(before, during[..n], session);
      BillsSnoc(before + during[..n], during[n], session);
      assert before + during == before + during[..n] + [during[n]];
    }
  }

  lemma BillsSnoc(before: seq<Event>, e: Event, session: string)
    ensures TurnsBilled(before + [e], session)
          == TurnsBilled(before, session) + TurnsOf(CountsAfter(before), e, session)
    ensures !Marks(e, session) ==> Billed(before + [e], session) == Billed(before, session)
    ensures e.session == session && BillOf(CountsAfter(before), e).Some? ==>
              Billed(before + [e], session) == Billed(before, session) + BillOf(CountsAfter(before), e).value.steps
    ensures e.session == session && BillOf(CountsAfter(before), e).None? ==>
              Billed(before + [e], session) == Billed(before, session)
    ensures !Marks(e, session) ==> TurnsOf(CountsAfter(before), e, session) == 0
  {
    assert (before + [e])[..|before|] == before;
  }

  // Nothing opens, bills or drops the session's count.
  predicate Quiet(events: seq<Event>, session: string) {
    forall e :: e in events ==> !Marks(e, session)
  }

  lemma OpenCount(before: seq<Event>, during: seq<Event>, session: string)
    requires session != "" && Quiet(during, session)
    ensures Pending(CountsAfter(before + [Opened(session, false)] + during), session) == StepsIn(during, session)
    ensures session in CountsAfter(before + [Opened(session, false)] + during)
  {
    var events, b := before + [Opened(session, false)] + during, |before|;
    assert events[b] == Opened(session, false);
    forall i | b < i < |events| ensures !Marks(events[i], session) {
      assert events[i] == during[i - b - 1] && during[i - b - 1] in during;
    }
    CountSinceMark(events, session, b);
    assert events[b + 1..] == during;
  }

  // One opening that nothing else on its session comes between, up to its end.
  function Span(session: string, during: seq<Event>, end: Event): seq<Event> {
    [Opened(session, false)] + during + [end]
  }

  lemma SpanBill(before: seq<Event>, session: string, during: seq<Event>, end: Event)
    requires session != "" && Quiet(during, session)
    requires (end.ClosedTurn? || end.ClosedResume?) && end.session == session && !end.byok
    ensures var events := before + Span(session, during, end);
            && TurnsBilled(events, session)
                == TurnsBilled(before, session) + (if end.ClosedTurn? && end.billable then 1 else 0)
            && Billed(events, session) == Billed(before, session)
                 + (if end.ClosedTurn? && !end.billable then 0 else StepsIn(during, session))
  {
    var start := before + [Opened(session, false)];
    BillsSnoc(before, Opened(session, false), session);
    QuietBills(start, during, session);
    OpenCount(before, during, session);
    BillsSnoc(start + during, end, session);
    assert before + Span(session, during, end) == start + during + [end];
  }

  // The resumes of a turn, one after the other, whatever other sessions do meanwhile.
  function Resumes(session: string, spans: seq<seq<Event>>): seq<Event> {
    if spans == [] then []
    else Resumes(session, spans[..|spans| - 1]) + Span(session, spans[|spans| - 1], ClosedResume(session, false))
  }

  function StepsOfAll(spans: seq<seq<Event>>, session: string): nat {
    if spans == [] then 0 else StepsOfAll(spans[..|spans| - 1], session) + StepsIn(spans[|spans| - 1], session)
  }

  lemma ResumeSpanBill(before: seq<Event>, session: string, during: seq<Event>)
    requires session != "" && Quiet(during, session)
    ensures var events := before + Span(session, during, ClosedResume(session, false));
            && TurnsBilled(events, session) == TurnsBilled(before, session)
            && Billed(events, session) == Billed(before, session) + StepsIn(during, session)
  {
    SpanBill(before, session, during, ClosedResume(session, false));
  }

  lemma OneMoreResume(before: seq<Event>, session: string, spans: seq<seq<Event>>)
    requires spans != []
    ensures before + Resumes(session, spans) == before + Resumes(session, spans[..|spans| - 1])
              + Span(session, spans[|spans| - 1], ClosedResume(session, false))
  {
    var a, b := Resumes(session, spans[..|spans| - 1]), Span(session, spans[|spans| - 1], ClosedResume(session, false));
    assert before + (a + b) == before + a + b;
  }

  lemma {:induction false} ResumesBill(before: seq<Event>, session: string, spans: seq<seq<Event>>)
    requires session != "" && forall during :: during in spans ==> Quiet(during, session)
    ensures TurnsBilled(before + Resumes(session, spans), session) == TurnsBilled(before, session)
    ensures Billed(before + Resumes(session, spans), session) == Billed(before, session) + StepsOfAll(spans, session)
    decreases |spans|
  {
    if spans == [] {
      assert before + [] == before;
    } else {
      var n := |spans| - 1;
      assert spans[n] in spans;
      ResumesBill(before, session, spans[..n]);
      ResumeSpanBill(before + Resumes(session, spans[..n]), session, spans[n]);
      OneMoreResume(before, session, spans);
    }
  }

  // A turn that ends with output and any number of resumes after it are billed as one turn together,
  // with all the steps of the turn and of the resumes.
  lemma WizardIsOneTurn(before: seq<Event>, session: string, during: seq<Event>, spans: seq<seq<Event>>)
    requires session != "" && Quiet(during, session) && forall d :: d in spans ==> Quiet(d, session)
    ensures var events := before + Span(session, during, ClosedTurn(session, false, true)) + Resumes(session, spans);
            && TurnsBilled(events, session) == TurnsBilled(before, session) + 1
            && Billed(events, session)
                == Billed(before, session) + StepsIn(during, session) + StepsOfAll(spans, session)
  {
    SpanBill(before, session, during, ClosedTurn(session, false, true));
    ResumesBill(before + Span(session, during, ClosedTurn(session, false, true)), session, spans);
  }

  // ---- lost steps ----

  predicate Settles(e: Event, session: string) {
    OpOf(e) == Take(session) || OpOf(e) == Discard(session)
  }

  // An agent step at p between two openings at b and e with no settling in between.
  predicate LostStep(events: seq<Event>, session: string, b: nat, p: nat, e: nat) {
    && b < p < e < |events|
    && OpOf(events[b]) == Begin(session) && events[p] == AgentStep(session) && OpOf(events[e]) == Begin(session)
    && forall i :: b < i < e ==> !Settles(events[i], session)
  }

  // Reopening finds no count to wipe out.
  ghost predicate OpensClean(events: seq<Event>, session: string) {
    forall i :: 0 <= i < |events| && OpOf(events[i]) == Begin(session) ==>
        Pending(CountsAfter(events[..i]), session) == 0
  }

  lemma {:induction false} OverwrittenAtOpenings(events: seq<Event>, session: string)
    ensures Overwritten(events, session) == 0 <==> OpensClean(events, session)
  {
    if events != [] {
      var n := |events| - 1;
      var before := events[..n];
      OverwrittenAtOpenings(before, session);
      assert forall i :: 0 <= i < n ==> before[i] == events[i] && before[..i] == events[..i];
    }
  }

  lemma {:induction false} StepsPositive(events: seq<Event>, session: string)
    ensures StepsIn(events, session) > 0 <==> AgentStep(session) in events
    decreases |events|
  {
    if events != [] {
      StepsPositive(events[..|events| - 1], session);
      assert events == events[..|events| - 1] + [events[|events| - 1]];
    }
  }

  // Steps are pending exactly if the session's last mark opened it and an agent step came after.
  ghost predicate OpenStep(events: seq<Event>, session: string, b: nat, p: nat) {
    LastMark(events, session, b) && OpOf(events[b]).Begin? && b < p < |events| && events[p] == AgentStep(session)
  }

  lemma OpenStepIsPending(events: seq<Event>, session: string, b: nat, p: nat)
    requires session != "" && OpenStep(events, session, b, p)
    ensures Pending(CountsAfter(events), session) > 0
  {
    CountSinceMark(events, session, b);
    var rest := events[b + 1..];
    assert rest[p - b - 1] == events[p];
    StepsPositive(rest, session);
  }

  lemma PendingIsOpenStep(events: seq<Event>, session: string) returns (b: nat, p: nat)
    requires session != "" && Pending(CountsAfter(events), session) > 0
    ensures OpenStep(events, session, b, p)
  {
    RegisteredSinceMark(events, session);
    var l :| LastMark(events, session, l) && OpOf(events[l]).Begin?;
    CountSinceMark(events, session, l);
    var rest := events[l + 1..];
    StepsPositive(rest, session);
    var i :| 0 <= i < |rest| && rest[i] == AgentStep(session);
    b, p := l, l + 1 + i;
  }

  // Of the openings around a lost step take the nearest on either side.
  lemma {:induction false} NearestOpenings(events: seq<Event>, session: string, b: nat, p: nat, e: nat)
    returns (b': nat, e': nat)
    requires LostStep(events, session, b, p, e)
    ensures LostStep(events, session, b', p, e') && forall i :: b' < i < e' ==> !Marks(events[i], session)
    decreases e - b
  {
    if i :| b < i < e && OpOf(events[i]) == Begin(session) {
      if i < p {
        b', e' := NearestOpenings(events, session, i, p, e);
      } else {
        b', e' := NearestOpenings(events, session, b, p, i);
      }
    } else {
      b', e' := b, e;
    }
  }

  lemma UncleanIsLost(events: seq<Event>, session: string, e: nat)
    requires session != "" && e < |events| && OpOf(events[e]) == Begin(session)
    requires Pending(CountsAfter(events[..e]), session) > 0
    ensures exists b: nat, p: nat :: LostStep(events, session, b, p, e)
  {
    var before := events[..e];
    var b, p := PendingIsOpenStep(before, session);
    forall i | b < i < e ensures !Settles(events[i], session) { assert !Marks(before[i], session); }
    assert LostStep(events, session, b, p, e);
  }

  lemma LostIsUnclean(events: seq<Event>, session: string, b: nat, p: nat, e: nat)
    requires session != "" && LostStep(events, session, b, p, e)
    ensures !OpensClean(events, session)
  {
    var b', e' := NearestOpenings(events, session, b, p, e);
    var before := events[..e'];
    forall i | b' < i < |before| ensures !Marks(before[i], session) { assert before[i] == events[i]; }
    assert before[p] == events[p] && before[b'] == events[b'];
    OpenStepIsPending(before, session, b', p);
  }

  // No counted step is wiped out exactly if no agent step comes between two openings of its session
  // without a settling between them.
  lemma NothingOverwritten(events: seq<Event>, session: string)
    requires session != ""
    ensures Overwritten(events, session) == 0 <==> !exists b: nat, p: nat, e: nat :: LostStep(events, session, b, p, e)
  {
    OverwrittenAtOpenings(events, session);
    if b: nat, p: nat, e: nat :| LostStep(events, session, b, p, e) { LostIsUnclean(events, session, b, p, e); }
    if !OpensClean(events, session) {
      var e: nat :| e < |events| && OpOf(events[e]) == Begin(session)
          && Pending(CountsAfter(events[..e]), session) != 0;
      UncleanIsLost(events, session, e);
    }
  }

  // ---- sessions left registered ----

  // A session is registered exactly if it was opened and not settled since.
  lemma RegisteredExactly(events: seq<Event>, session: string)
    requires session != ""
    ensures session in CountsAfter(events) <==>
            exists b: nat :: b < |events| && OpOf(events[b]) == Begin(session) && NoneSettles(events, session, b)
  {
    RegisteredSinceMark(events, session);
    if b: nat :| b < |events| && OpOf(events[b]) == Begin(session) && NoneSettles(events, session, b) {
      var l := LastOpening(events, session, b);
      assert LastMark(events, session, l);
    }
  }

  predicate NoneSettles(events: seq<Event>, session: string, b: nat) {
    forall i :: b < i < |events| ==> !Settles(events[i], session)
  }

  lemma {:induction false} LastOpening(events: seq<Event>, session: string, b: nat) returns (l: nat)
    requires b < |events| && OpOf(events[b]) == Begin(session) && NoneSettles(events, session, b)
    ensures l < |events| && OpOf(events[l]) == Begin(session) && forall i :: l < i < |events| ==>
          !Marks(events[i], session)
    decreases |events| - b
  {
    if i :| b < i < |events| && OpOf(events[i]) == Begin(session) {
      l := LastOpening(events, session, i);
    } else {
      l := b;
    }
  }

  // A turn or resume with nothing else on its session in between, that has ended: its session is
  // still registered exactly if its message could not be queued, and then holds the steps that any
  // source made on it since the opening, until the session is opened again.
  lemma LeftRegisteredExactly(before: seq<Event>, session: string, during: seq<Event>, end: Event, after: seq<Event>)
    requires session != "" && Quiet(during, session) && Quiet(after, session)
    requires end.session == session && (end.QueueFailed? || ((end.ClosedTurn? || end.ClosedResume?) && !end.byok))
    ensures var counts := CountsAfter(before + Span(session, during, end) + after);
            && (session in counts <==> end.QueueFailed?)
            && Pending(counts, session) == if end.QueueFailed? then StepsIn(during + after, session) else 0
  {
    var events := before + Span(session, during, end) + after;
    var b, c := |before|, |before| + 1 + |during|;
    assert events[b] == Opened(session, false) && events[c] == end;
    if end.QueueFailed? {
      var rest := during + [end] + after;
      assert Quiet(rest, session);
      assert events == before + [Opened(session, false)] + rest;
      OpenCount(before, rest, session);
      StepsAppend(during + [end], after, session);
      StepsSnoc(during, end, session);
      StepsAppend(during, after, session);
    } else {
      forall i | c < i < |events| ensures !Marks(events[i], session) {
        assert events[i] == after[i - c - 1] && after[i - c - 1] in after;
      }
      assert LastMark(events, session, c);
      RegisteredSinceMark(events, session);
      forall l | LastMark(events, session, l) ensures l == c {}
    }
  }

  lemma {:induction false} StepsAppend(a: seq<Event>, b: seq<Event>, session: string)
    ensures StepsIn(a + b, session) == StepsIn(a, session) + StepsIn(b, session)
    decreases |b|
  {
    if b == [] {
      assert a + b == a;
    } else {
      var n := |b| - 1;
      StepsAppend(a, b[..n], session);
      StepsSnoc(a + b[..n], b[n], session);
      assert a + b == a + b[..n] + [b[n]] && b == b[..n] + [b[n]];
      StepsSnoc(b[..n], b[n], session);
    }
  }

  lemma AfterOneMore(before: seq<Event>, e: Event, session: string)
    ensures var events, counts := before + [e], CountsAfter(before);
            && CountsAfter(events) == Do(counts, OpOf(e))
            && Counted(events, session) == Counted(before, session)
                 + (if e == AgentStep(session) && session in counts then 1 else 0)
            && Billed(events, session) == Billed(before, session)
                 + (match BillOf(counts, e)
                    case Some(bill) => if e.session == session then bill.steps else 0
                    case None => 0)
            && Overwritten(events, session) == Overwritten(before, session)
                 + (if OpOf(e) == Begin(session) then Pending(counts, session) else 0)
  {
    assert (before + [e])[..|before|] == before;
  }

  // A session whose turns all run on the user's own key is never registered, counted or billed.
  lemma {:induction false} OwnKeyNeverCounts(events: seq<Event>, session: string)
    requires forall e :: e in events && e.Opened? && e.session == session ==> e.byok
    ensures session !in CountsAfter(events) && Counted(events, session) == Billed(events, session) == 0
    decreases |events|
  {
    if events != [] {
      var n := |events| - 1;
      assert events == events[..n] + [events[n]];
      OwnKeyNeverCounts(events[..n], session);
    }
  }

  // Two overlapping turns on one session: the step of the first is counted, and never billed.
  lemma OverlapLosesAStep(s: string)
    requires s != ""
    ensures var events := [Opened(s, false), AgentStep(s), Opened(s, false), ClosedTurn(s, false, true),
          ClosedTurn(s, false, true)];
            Counted(events, s) == 1 && Billed(events, s) == 0 && Overwritten(events, s) == 1
  {
    var start, closed := Opened(s, false), ClosedTurn(s, false, true);
    var h1: seq<Event> := [] + [start];
    var h2 := h1 + [AgentStep(s)];
    var h3 := h2 + [start];
    var h4 := h3 + [closed];
    AfterOneMore([], start, s);
    AfterOneMore(h1, AgentStep(s), s);
    AfterOneMore(h2, start, s);
    AfterOneMore(h3, closed, s);
    AfterOneMore(h4, closed, s);
    assert h4 + [closed] == [start, AgentStep(s), start, closed, closed];
  }

  // A message that cannot be queued leaves its session registered, so that the steps of a later
  // turn on the user's own key are counted there and stay for good.
  lemma FailedQueueKeepsCounting(s: string)
    requires s != ""
    ensures var events := [Opened(s, false), QueueFailed(s), Opened(s, true), AgentStep(s), ClosedTurn(s, true, true)];
            Counted(events, s) == 1 && Pending(CountsAfter(events), s) == 1
  {
    var start := Opened(s, false);
    var h1: seq<Event> := [] + [start];
    var h2 := h1 + [QueueFailed(s)];
    var h3 := h2 + [Opened(s, true)];
    var h4 := h3 + [AgentStep(s)];
    AfterOneMore([], start, s);
    AfterOneMore(h1, QueueFailed(s), s);
    AfterOneMore(h2, Opened(s, true), s);
    AfterOneMore(h3, AgentStep(s), s);
    AfterOneMore(h4, ClosedTurn(s, true, true), s);
    assert h4 + [ClosedTurn(s, true, true)]
        == [start, QueueFailed(s), Opened(s, true), AgentStep(s), ClosedTurn(s, true, true)];
  }

  // ---- the end of a turn ----

  predicate IsBillableOutput(sseType: string) {
    sseType == "message_delta" || sseType == "message" || sseType == "interrupt_request"
  }

  function Shown(events: seq<Option<string>>): seq<string> {
    if events == [] then []
    else Shown(events[..|events| - 1]) + match events[|events| - 1] case Some(t) => [t] case None => []
  }

  // The client was sent a piece of the answer, a whole one, or a question.
  predicate ShowsOutput(sent: seq<string>) {
    "message_delta" in sent || "message" in sent || "interrupt_request" in sent
  }

  lemma ShowsSnoc(sent: seq<string>, t: string)
    ensures ShowsOutput(sent + [t]) <==> ShowsOutput(sent) || IsBillableOutput(t)
  {
    assert forall x :: x in sent + [t] <==> x in sent || x == t;
  }

  // Events are forwarded in order, those without a client form are skipped, and nothing is read
  // after "done".
  method FanOut(events: seq<Option<string>>) returns (sent: seq<string>, sawOutput: bool)
    ensures sawOutput <==> ShowsOutput(sent)
    ensures exists n :: 0 <= n <= |events| && sent == Shown(events[..n])
              && Some("done") !in events[..if n == 0 then 0 else n - 1]
              && (n < |events| ==> n > 0 && events[n - 1] == Some("done"))
  {
    sent, sawOutput := [], false;
    var i := 0;
    while i < |events|
      invariant 0 <= i <= |events|
      invariant sent == Shown(events[..i]) && Some("done") !in events[..i]
      invariant sawOutput <==> ShowsOutput(sent)
    {
      assert events[..i + 1][..i] == events[..i] && events[..i + 1] == events[..i] + [events[i]];
      if events[i].Some? {
        var t := events[i].value;
        if IsBillableOutput(t) { sawOutput := true; }
        ShowsSnoc(sent, t);
        sent := sent + [t];
        if t == "done" {
          assert sent == Shown(events[..i + 1]);
          return;
        }
      }
      i := i + 1;
    }
    assert events[..i] == events;
  }

  method SettleTurn(acc: StepAccumulator, session: string, byok: bool, sawOutput: bool) returns (bill: Option<Bill>)
    modifies acc
    ensures bill == BillOf(old(acc.counts), ClosedTurn(session, byok, sawOutput))
    ensures acc.counts == Do(old(acc.counts), OpOf(ClosedTurn(session, byok, sawOutput)))
  {
    if byok { return None; }
    if !sawOutput {
      acc.DiscardSession(session);
      return None;
    }
    var steps := acc.TakeSession(session);
    return Some(Bill(1, steps));
  }

  method SettleResumeSteps(acc: StepAccumulator, session: string, byok: bool) returns (bill: Option<Bill>)
    modifies acc
    ensures bill == BillOf(old(acc.counts), ClosedResume(session, byok))
    ensures acc.counts == Do(old(acc.counts), OpOf(ClosedResume(session, byok)))
  {
    if byok { return None; }
    var steps := acc.TakeSession(session);
    if steps == 0 { return None; }
    return Some(Bill(0, steps));
  }
}
