// The life of a task: its status machine, the timestamps that go with it, and what they say about
// each other over whole runs.
module EngineTask {
  import opened Prelude

  datatype Status = Draft | Approved | Pending | InProgress | Completed | Failed | NeedsInput | Cancelled

  datatype TaskError = InvalidTransition | InvalidPriority

  datatype Task = Task(status: Status, priority: int, result: string, error: string, createdAt: int, updatedAt: int,
                       approvedAt: Option<int>, startedAt: Option<int>, completedAt: Option<int>)

  function ValidTransitions(from: Status): seq<Status> {
    match from
    case Draft => [Approved, Cancelled]
    case Approved => [InProgress, Cancelled]
    case Pending => [InProgress, Cancelled]
    case InProgress => [Completed, Failed, NeedsInput, Cancelled]
    case NeedsInput => [InProgress, Failed, Cancelled]
    case Completed => []
    case Failed => []
    case Cancelled => []
  }

  predicate IsTerminal(s: Status) { s == Completed || s == Failed || s == Cancelled }

  function Moved(t: Task, target: Status, now: int): Result<Task, TaskError> {
    if target !in ValidTransitions(t.status) then Err(InvalidTransition)
    else
      var u := t.(status := target, updatedAt := now);
      Ok(match target
         case Approved => u.(approvedAt := Some(now))
         case InProgress => if t.startedAt == None then u.(startedAt := Some(now)) else u
         case Completed => u.(completedAt := Some(now))
         case Failed => u.(completedAt := Some(now))
         case Cancelled => u.(completedAt := Some(now))
         case _ => u)
  }

  datatype Op = Approve | Start | Complete(result: string) | Fail(reason: string) | AskInput | Cancel
              | SetPriority(priority: int)

  function Target(op: Op): Status
    requires !op.SetPriority?
  {
    match op
    case Approve => Approved
    case Start => InProgress
    case Complete(_) => Completed
    case Fail(_) => Failed
    case AskInput => NeedsInput
    case Cancel => Cancelled
  }

  function Do(t: Task, op: Op, now: int): Result<Task, TaskError> {
    match op
    case SetPriority(p) => if p < 0 || p > 2 then Err(InvalidPriority) else Ok(t.(priority := p, updatedAt := now))
    case _ =>
      match Moved(t, Target(op), now)
      case Err(e) => Err(e)
      case Ok(u) =>
        match op
        case Complete(result) => Ok(u.(result := result))
        case Fail(reason) => Ok(u.(error := reason))
        case _ => Ok(u)
  }

  // ---- which operation is accepted when ----

  // Failing and starting are accepted for a task that needs input too; a priority is accepted in
  // any status, terminal ones included.
  lemma Accepted(t: Task, op: Op, now: int)
    ensures Do(t, op, now).Ok? <==>
            match op
            case Approve => t.status == Draft
            case Start => t.status in {Approved, Pending, NeedsInput}
            case Complete(_) => t.status == InProgress
            case Fail(_) => t.status in {InProgress, NeedsInput}
            case AskInput => t.status == InProgress
            case Cancel => !IsTerminal(t.status)
            case SetPriority(p) => 0 <= p <= 2
  {
    if !op.SetPriority? { InValid(t.status, Target(op)); }
  }

  lemma InValid(from: Status, to: Status)
    ensures to in ValidTransitions(from) <==>
            match to
            case Draft => false
            case Pending => false
            case Approved => from == Draft
            case InProgress => from in {Approved, Pending, NeedsInput}
            case Completed => from == InProgress
            case NeedsInput => from == InProgress
            case Failed => from in {InProgress, NeedsInput}
            case Cancelled => !IsTerminal(from)
  {
  }

  // ---- runs ----

  datatype Timed = Timed(op: Op, at: int)

  // A refused operation changes nothing.
  function Run(t: Task, ops: seq<Timed>): Task {
    if ops == [] then t
    else
      var before, last := Run(t, ops[..|ops| - 1]), ops[|ops| - 1];
      match Do(before, last.op, last.at)
      case Ok(u) => u
      case Err(_) => before
  }

  // Newly created, as a draft that waits for approval or queued without one.
  predicate Newborn(t: Task, draft: bool, now: int) {
    && t.status == (if draft then Draft else Pending) && t.createdAt == t.updatedAt == now
    && t.approvedAt == None && t.startedAt == None && t.completedAt == None
  }

  predicate ClockRuns(from: int, ops: seq<Timed>) {
    && (ops != [] ==> from <= ops[0].at)
    && (forall i :: 0 < i < |ops| ==> ops[i - 1].at <= ops[i].at)
  }

  function Later(a: Option<int>, b: int): int {
    match a case Some(x) => x case None => b
  }

  // What every task that lived by the rules satisfies at time `now`.
  predicate Consistent(t: Task, draft: bool, now: int) {
    && (t.completedAt.Some? <==> IsTerminal(t.status))
    && (t.status in {InProgress, NeedsInput, Completed, Failed} ==> t.startedAt.Some?)
    && (t.status in {Draft, Approved, Pending} ==> t.startedAt == None)
    && (draft && t.startedAt.Some? ==> t.approvedAt.Some?)
    && (draft && t.status == Approved ==> t.approvedAt.Some?)
    && (t.status == Draft ==> t.approvedAt == None && draft)
    && (t.status == Pending ==> !draft)
    && (!draft ==> t.approvedAt == None && t.status != Approved)
    && var approved := Later(t.approvedAt, t.createdAt);
    && var started := Later(t.startedAt, approved);
    && var completed := Later(t.completedAt, started);
       t.createdAt <= approved <= started <= completed <= t.updatedAt <= now
  }

  lemma StepConsistent(t: Task, draft: bool, now: int, op: Op, at: int)
    requires Consistent(t, draft, now) && now <= at && Do(t, op, at).Ok?
    ensures Consistent(Do(t, op, at).value, draft, at)
  {
    Accepted(t, op, at);
  }

  lemma {:induction false} RunConsistent(t: Task, draft: bool, now: int, ops: seq<Timed>)
    requires Consistent(t, draft, now) && ClockRuns(now, ops)
    ensures Consistent(Run(t, ops), draft, if ops == [] then now else ops[|ops| - 1].at)
    decreases |ops|
  {
    if ops != [] {
      var n := |ops| - 1;
      var before, last := Run(t, ops[..n]), ops[n];
      RunConsistent(t, draft, now, ops[..n]);
      var reached := if n == 0 then now else ops[n - 1].at;
      if Do(before, last.op, last.at).Ok? { StepConsistent(before, draft, reached, last.op, last.at); }
    }
  }

  // In every run from a new draft or queued task, on a clock that does not go back: the completion
  // time is set exactly in the terminal states, completed and failed tasks had started, a draft
  // never gets to run without approval, and created <= approved <= started <= completed <= updated.
  lemma LifeIsConsistent(t: Task, draft: bool, now: int, ops: seq<Timed>)
    requires Newborn(t, draft, now) && ClockRuns(now, ops)
    ensures var u := Run(t, ops);
            && (u.completedAt.Some? <==> IsTerminal(u.status))
            && (u.status in {Completed, Failed} ==> u.startedAt.Some?)
            && (draft && u.status in {InProgress, NeedsInput, Completed, Failed} ==> u.approvedAt.Some?)
            && (u.approvedAt.Some? ==> draft && u.createdAt <= u.approvedAt.value <= u.updatedAt)
            && (u.approvedAt.Some? && u.startedAt.Some? ==> u.approvedAt.value <= u.startedAt.value)
            && (u.startedAt.Some? && u.completedAt.Some? ==> u.startedAt.value <= u.completedAt.value)
            && (u.completedAt.Some? ==> u.completedAt.value <= u.updatedAt)
  {
    RunConsistent(t, draft, now, ops);
  }

  // ---- what never changes again ----

  predicate SameButTouched(t: Task, u: Task) {
    u == t.(priority := u.priority, updatedAt := u.updatedAt)
  }

  lemma {:induction false} TerminalForGood(t: Task, ops: seq<Timed>)
    requires IsTerminal(t.status)
    ensures SameButTouched(t, Run(t, ops))
    decreases |ops|
  {
    if ops != [] {
      var before, last := Run(t, ops[..|ops| - 1]), ops[|ops| - 1];
      TerminalForGood(t, ops[..|ops| - 1]);
      Accepted(before, last.op, last.at);
    }
  }

  lemma {:induction false} StartedForGood(t: Task, ops: seq<Timed>)
    requires t.startedAt.Some?
    ensures Run(t, ops).startedAt == t.startedAt
    decreases |ops|
  {
    if ops != [] { StartedForGood(t, ops[..|ops| - 1]); }
  }

  // The operation that completed the task left its result and its time, the one that failed it its
  // reason; no other operation writes either text.
  predicate EndedBy(t: Task, u: Task, ops: seq<Timed>) {
    match u.status
    case Completed => u.error == t.error && u.completedAt.Some? && Timed(Complete(u.result), u.completedAt.value) in ops
    case Failed => u.result == t.result && u.completedAt.Some? && Timed(Fail(u.error), u.completedAt.value) in ops
    case _ => u.result == t.result && u.error == t.error
  }

  lemma {:induction false} OutcomeIsLastOp(t: Task, ops: seq<Timed>)
    requires !IsTerminal(t.status)
    ensures EndedBy(t, Run(t, ops), ops)
    decreases |ops|
  {
    if ops != [] {
      var before, last := Run(t, ops[..|ops| - 1]), ops[|ops| - 1];
      OutcomeIsLastOp(t, ops[..|ops| - 1]);
      Accepted(before, last.op, last.at);
    }
  }

  // Priorities stay among the three there are.
  lemma {:induction false} PriorityInRange(t: Task, ops: seq<Timed>)
    requires 0 <= t.priority <= 2
    ensures 0 <= Run(t, ops).priority <= 2
    decreases |ops|
  {
    if ops != [] { PriorityInRange(t, ops[..|ops| - 1]); }
  }

  // The last accepted operation of a run.
  predicate LastAccepted(t: Task, ops: seq<Timed>, i: nat)
    requires i < |ops|
  {
    && Do(Run(t, ops[..i]), ops[i].op, ops[i].at).Ok?
    && forall j :: i < j < |ops| ==> Do(Run(t, ops[..j]), ops[j].op, ops[j].at).Err?
  }

  lemma Touch(t: Task, op: Op, now: int)
    requires Do(t, op, now).Ok?
    ensures var u := Do(t, op, now).value;
            u.updatedAt == now && u.priority == if op.SetPriority? then op.priority else t.priority
  {
  }

  // The update time is that of the last accepted operation.
  lemma {:induction false} UpdatedByLast(t: Task, ops: seq<Timed>, i: nat)
    requires i < |ops| && LastAccepted(t, ops, i)
    ensures Run(t, ops).updatedAt == ops[i].at
    decreases |ops|
  {
    var n := |ops| - 1;
    assert forall j :: 0 <= j <= n ==> ops[..n][..j] == ops[..j];
    if i < n {
      UpdatedByLast(t, ops[..n], i);
    } else {
      Touch(Run(t, ops[..n]), ops[n].op, ops[n].at);
    }
  }

  // The priority is the last valid one that was asked for, whatever the status was at the time.
  lemma {:induction false} PriorityIsLastSet(t: Task, ops: seq<Timed>)
    ensures forall i :: 0 <= i < |ops| && LastPriority(ops, i) ==> Run(t, ops).priority == ops[i].op.priority
    ensures (forall i :: 0 <= i < |ops| ==> !Sets(ops[i].op)) ==> Run(t, ops).priority == t.priority
    decreases |ops|
  {
    if ops != [] {
      var n := |ops| - 1;
      var before, last := Run(t, ops[..n]), ops[n];
      PriorityIsLastSet(t, ops[..n]);
      if Do(before, last.op, last.at).Ok? { Touch(before, last.op, last.at); }
      Accepted(before, last.op, last.at);
      forall i | 0 <= i < n && LastPriority(ops, i) ensures LastPriority(ops[..n], i) {}
    }
  }

  predicate LastPriority(ops: seq<Timed>, i: nat)
    requires i < |ops|
  {
    Sets(ops[i].op) && forall j :: i < j < |ops| ==> !Sets(ops[j].op)
  }

  predicate Sets(op: Op) { op.SetPriority? && op.priority in {0, 1, 2} }

  // A task can be asked for input and started again any number of times; a new task in progress
  // reaches every terminal state in one accepted step, and so does one that needs input, but for
  // completion.
  lemma WaysToEnd(t: Task, now: int)
    ensures t.status == InProgress ==>
          Do(t, Complete(""), now).Ok? && Do(t, Fail(""), now).Ok? && Do(t, Cancel, now).Ok?
    ensures t.status == NeedsInput ==>
          Do(t, Complete(""), now).Err? && Do(t, Fail(""), now).Ok? && Do(t, Cancel, now).Ok?
    ensures t.status in {Draft, Approved, Pending} ==>
          Do(t, Complete(""), now).Err? && Do(t, Fail(""), now).Err? && Do(t, Cancel, now).Ok?
  {
    Accepted(t, Complete(""), now);
    Accepted(t, Fail(""), now);
    Accepted(t, Cancel, now);
  }

  // ---- the code ----

  class TaskRecord {
    var status: Status
    var priority: int
    var result: string
    var error: string
    var createdAt: int
    var updatedAt: int
    var approvedAt: Option<int>
    var startedAt: Option<int>
    var completedAt: Option<int>

    function Value(): Task
      reads this
    {
      Task(status, priority, result, error, createdAt, updatedAt, approvedAt, startedAt, completedAt)
    }

    method CanTransitionTo(target: Status) returns (ok: bool)
      ensures ok <==> target in ValidTransitions(status)
    {
      var allowed := ValidTransitions(status);
      var i := 0;
      while i < |allowed|
        invariant 0 <= i <= |allowed| && target !in allowed[..i]
      {
        if allowed[i] == target { return true; }
        i := i + 1;
      }
      assert allowed[..i] == allowed;
      return false;
    }

    method Transition(target: Status, now: int) returns (err: Option<TaskError>)
      modifies this
      ensures match Moved(old(Value()), target, now)
              case Ok(u) => err == None && Value() == u
              case Err(e) => err == Some(e) && Value() == old(Value())
    {
      var ok := CanTransitionTo(target);
      if !ok { return Some(InvalidTransition); }
      status := target;
      updatedAt := now;
      match target {
        case Approved => approvedAt := Some(now);
        case InProgress => if startedAt == None { startedAt := Some(now); }
        case Completed => completedAt := Some(now);
        case Failed => completedAt := Some(now);
        case Cancelled => completedAt := Some(now);
        case _ =>
      }
      return None;
    }

    // Approve, Start, Complete, Fail, Cancel, asking for input and SetPriority.
    method Perform(op: Op, now: int) returns (err: Option<TaskError>)
      modifies this
      ensures match Do(old(Value()), op, now)
              case Ok(u) => err == None && Value() == u
              case Err(e) => err == Some(e) && Value() == old(Value())
    {
      if op.SetPriority? {
        if op.priority < 0 || op.priority > 2 { return Some(InvalidPriority); }
        priority := op.priority;
        updatedAt := now;
        return None;
      }
      err := Transition(Target(op), now);
      if err == None {
        match op {
          case Complete(r) => result := r;
          case Fail(reason) => error := reason;
          case _ =>
        }
      }
    }
  }
}
