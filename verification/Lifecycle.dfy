/** The lifecycle of one task: its transition table, attempts and history. */
module Lifecycle {
  import opened Wrappers

  datatype State = Pending | Ready | Running | Completed | Failed | Blocked | Skipped

  datatype Entry = Entry(from: State, to: State, retry: bool)

  datatype Error = InvalidTransition | CompletionError | RetryExhausted | MissingReason

  datatype Life = Life(
    state: State,
    attempt: nat,
    maxAttempts: nat,
    retryable: bool,
    heartbeat: Option<int>,
    startedAt: Option<int>,
    reported: bool,
    history: seq<Entry>)

  datatype Op =
    | MarkReady
    | Start(agent: bool, at: Option<int>)
    | Beat(now: int)
    | Complete(outputs: bool)
    | Fail(retryable: bool)
    | Retry
    | Block(reason: bool)
    | Skip(reason: bool)
    | RecoverOrphan(now: int, timeout: nat)
    | Move(target: State)

  /** The transition table. */
  predicate Allowed(from: State, to: State) {
    match from
    case Pending => to == Ready || to == Skipped || to == Blocked
    case Ready => to == Running || to == Skipped || to == Blocked
    case Running => to == Completed || to == Failed || to == Blocked
    case Failed => to == Ready
    case _ => false
  }

  function New(maxAttempts: nat): Life {
    Life(Pending, 0, maxAttempts, true, None, None, false, [])
  }

  // ----- operations

  function Go(l: Life, to: State, retry: bool): Result<Life, Error> {
    if Allowed(l.state, to) then Ok(l.(state := to, history := l.history + [Entry(l.state, to, retry)]))
    else Err(InvalidTransition)
  }

  function DoStart(l: Life, agent: bool, now: Option<int>): Result<Life, Error> {
    if !agent then Err(MissingReason)
    else
      match Go(l, Running, false)
      case Err(e) => Err(e)
      case Ok(m) =>
        var counted := if m.attempt == 0 then m.(attempt := 1) else m;
        Ok(if now.Some? then counted.(startedAt := now, heartbeat := now) else counted)
  }

  function DoComplete(l: Life, outputs: bool): Result<Life, Error> {
    if l.state == Completed then Ok(l)
    else if l.state != Running then Err(InvalidTransition)
    else if !outputs then Err(CompletionError)
    else Go(l.(reported := true), Completed, false)
  }

  function DoFail(l: Life, retryable: bool): Result<Life, Error> {
    if l.state != Running then Err(InvalidTransition) else Go(l.(retryable := retryable), Failed, false)
  }

  function DoRetry(l: Life): Result<Life, Error> {
    if l.state != Failed then Err(InvalidTransition)
    else if l.attempt >= l.maxAttempts || !l.retryable then Err(RetryExhausted)
    else Go(l.(attempt := l.attempt + 1), Ready, true)
  }

  predicate Orphaned(l: Life, now: int, timeout: nat) {
    var reference := if l.heartbeat.Some? then l.heartbeat else l.startedAt;
    !l.reported || reference == None || now - reference.value >= timeout
  }

  function Apply(l: Life, op: Op): Result<Life, Error> {
    match op
    case MarkReady => Go(l, Ready, false)
    case Start(agent, now) => DoStart(l, agent, now)
    case Beat(now) => if l.state != Running then Err(InvalidTransition) else Ok(l.(heartbeat := Some(now)))
    case Complete(outputs) => DoComplete(l, outputs)
    case Fail(retryable) => DoFail(l, retryable)
    case Retry => DoRetry(l)
    case Block(reason) => if !reason then Err(MissingReason) else Go(l, Blocked, false)
    case Skip(reason) => if !reason then Err(MissingReason) else Go(l, Skipped, false)
    case RecoverOrphan(now, timeout) =>
      if l.state == Running && Orphaned(l, now, timeout) then DoFail(l, true) else Ok(l)
    case Move(target) => Go(l, target, false)
  }

  /** An operation that raises leaves the task as it was. */
  function Next(l: Life, op: Op): Life {
    match Apply(l, op)
    case Ok(m) => m
    case Err(_) => l
  }

  function After(l: Life, ops: seq<Op>): Life {
    if ops == [] then l else Next(After(l, ops[..|ops| - 1]), ops[|ops| - 1])
  }

  // ----- every run keeps

  /** A history is a path in the transition table from one state to another. */
  ghost predicate Path(start: State, history: seq<Entry>, end: State) {
    if history == [] then start == end
    else
      var last := history[|history| - 1];
      Path(start, history[..|history| - 1], last.from) && Allowed(last.from, last.to) && last.to == end
  }

  function Retries(history: seq<Entry>): nat {
    if history == [] then 0
    else Retries(history[..|history| - 1]) + if history[|history| - 1].retry then 1 else 0
  }

  /** Entries into running. */
  function Starts(history: seq<Entry>): nat {
    if history == [] then 0
    else Starts(history[..|history| - 1]) + if history[|history| - 1].to == Running then 1 else 0
  }

  /** Entries that leave failed without being a retry. */
  function Bypasses(history: seq<Entry>): nat {
    if history == [] then 0
    else
      var last := history[|history| - 1];
      Bypasses(history[..|history| - 1]) + if last.from == Failed && !last.retry then 1 else 0
  }

  ghost predicate Bounded(l: Life) {
    l.maxAttempts >= 1 && l.attempt <= l.maxAttempts
  }

  ghost predicate Valid(l: Life) {
    Bounded(l) && (Ran(l.state) ==> l.attempt >= 1)
  }

  predicate Ran(s: State) {
    s == Running || s == Completed || s == Failed
  }

  predicate Final(s: State) {
    s == Completed || s == Blocked || s == Skipped
  }

  /** One step adds at most one history entry, keeps the attempts bounded, and leaves a final task alone. */
  lemma StepKeeps(l: Life, op: Op)
    requires Bounded(l)
    ensures var m := Next(l, op);
            && Bounded(m) && m.maxAttempts == l.maxAttempts && l.attempt <= m.attempt
            && ((m.history == l.history && m.state == l.state)
                || (|m.history| == |l.history| + 1 && m.history[..|l.history|] == l.history
                    && m.history[|l.history|].from == l.state && m.history[|l.history|].to == m.state
                    && Allowed(l.state, m.state)))
            && (Final(l.state) ==> m == l)
  {
  }

  /** The named operations also keep a task that ran at attempt one or above; `transition` to running need not. */
  lemma StepKeepsValid(l: Life, op: Op)
    requires Valid(l)
    ensures Valid(Next(l, op)) <==> !(op == Move(Running) && l.state == Ready && l.attempt == 0)
  {
  }

  /** Whatever is called in whatever order, the history is a path from the first state to the current one. */
  lemma {:induction false} HistoryIsPath(l: Life, ops: seq<Op>)
    requires Bounded(l) && l.history == []
    ensures Path(l.state, After(l, ops).history, After(l, ops).state)
    ensures Bounded(After(l, ops)) && After(l, ops).maxAttempts == l.maxAttempts
  {
    if ops != [] {
      HistoryIsPath(l, ops[..|ops| - 1]);
      StepKeeps(After(l, ops[..|ops| - 1]), ops[|ops| - 1]);
    }
  }

  lemma {:induction false} FinalForever(l: Life, ops: seq<Op>)
    requires Bounded(l) && Final(l.state)
    ensures After(l, ops) == l
  {
    if ops != [] {
      FinalForever(l, ops[..|ops| - 1]);
      StepKeeps(l, ops[|ops| - 1]);
    }
  }

  // ----- starts, attempts and retries

  /** Some call of `start` found the attempt counter at zero and set it. */
  predicate Counted(max: nat, ops: seq<Op>) {
    && ops != []
    && var l, op := After(New(max), ops[..|ops| - 1]), ops[|ops| - 1];
    Counted(max, ops[..|ops| - 1]) || CountsStart(l, op)
  }

  predicate CountsStart(l: Life, op: Op) {
    op.Start? && op.agent && l.state == Ready && l.attempt == 0
  }

  function One(b: bool): nat {
    if b then 1 else 0
  }

  /**
    The attempt counter is the retries plus the counted start.  A task that runs or ran was started once for its first
    readiness, once for each retry, and once for each bypass; a ready task has yet to use its last readiness.
  */
  ghost predicate Tally(l: Life, counted: bool) {
    && l.attempt == One(counted) + Retries(l.history)
    && (Ran(l.state) ==> Starts(l.history) == 1 + Retries(l.history) + Bypasses(l.history))
    && (l.state == Ready ==> Starts(l.history) == Retries(l.history) + Bypasses(l.history))
    && (l.state == Pending ==> Starts(l.history) == Retries(l.history) == Bypasses(l.history) == 0)
    && Starts(l.history) <= 1 + Retries(l.history) + Bypasses(l.history)
    && (counted ==> Starts(l.history) >= 1)
    && (Starts(l.history) == 0 ==> Retries(l.history) == Bypasses(l.history) == 0)
  }

  lemma SumsAppend(history: seq<Entry>, e: Entry)
    ensures Retries(history + [e]) == Retries(history) + One(e.retry)
    ensures Starts(history + [e]) == Starts(history) + One(e.to == Running)
    ensures Bypasses(history + [e]) == Bypasses(history) + One(e.from == Failed && !e.retry)
  {
    assert (history + [e])[..|history|] == history;
  }

  /** The entry a step adds, if it adds one. */
  lemma StepEntry(l: Life, op: Op)
    ensures var m := Next(l, op);
            || (m.history == l.history && m.state == l.state && m.attempt == l.attempt && !CountsStart(l, op))
            || (&& Allowed(l.state, m.state) && m.history == l.history + [Entry(l.state, m.state, op == Retry)]
                && m.attempt == l.attempt + One(op == Retry) + One(CountsStart(l, op))
                && (op == Retry ==> l.state == Failed))
  {
  }

  lemma StepTally(l: Life, op: Op, counted: bool)
    requires Tally(l, counted)
    ensures Tally(Next(l, op), counted || CountsStart(l, op))
  {
    var m := Next(l, op);
    StepEntry(l, op);
    SumsAppend(l.history, Entry(l.state, m.state, op == Retry));
  }

  /** However a new task is driven, starts, retries, bypasses and the attempt counter are tied together. */
  lemma {:induction false} StartsExactly(max: nat, ops: seq<Op>)
    requires max >= 1
    ensures Tally(After(New(max), ops), Counted(max, ops))
    ensures Bounded(After(New(max), ops)) && After(New(max), ops).maxAttempts == max
  {
    HistoryIsPath(New(max), ops);
    if ops != [] {
      StartsExactly(max, ops[..|ops| - 1]);
      StepTally(After(New(max), ops[..|ops| - 1]), ops[|ops| - 1], Counted(max, ops[..|ops| - 1]));
    }
  }

  /**
    The retry limit as a limit on starts.  A task that ran and was counted has as many starts as its attempt counter says
    exactly when nothing left failed without a retry, and more than its limit exactly when the bypasses pass what the
    counter leaves of it.
  */
  lemma StartLimitExactly(max: nat, ops: seq<Op>)
    requires max >= 1 && Ran(After(New(max), ops).state)
    ensures var l := After(New(max), ops);
            && (Counted(max, ops) ==> (Starts(l.history) == l.attempt <==> Bypasses(l.history) == 0))
            && (Starts(l.history) > max <==> Bypasses(l.history) + One(!Counted(max, ops)) > max - l.attempt)
  {
    StartsExactly(max, ops);
  }

  /** In any state: without bypasses, and counted, there are never more starts than the limit. */
  lemma StartsWithinLimit(max: nat, ops: seq<Op>)
    requires max >= 1
    ensures var l := After(New(max), ops);
            Starts(l.history) <= l.attempt + Bypasses(l.history) + One(!Counted(max, ops))
    ensures Bypasses(After(New(max), ops).history) == 0 && Counted(max, ops) ==> Starts(After(New(max), ops).history) <= max
  {
    StartsExactly(max, ops);
  }

  predicate Started(history: seq<Entry>) {
    history != [] && (Started(history[..|history| - 1]) || history[|history| - 1].to == Running)
  }

  lemma {:induction false} StartedIsSomeStart(history: seq<Entry>)
    ensures Started(history) <==> Starts(history) > 0
  {
    if history != [] { StartedIsSomeStart(history[..|history| - 1]); }
  }

  /** The attempt counter is the first start plus the explicit retries. */
  ghost predicate Counts(l: Life) {
    && l.attempt == (if Started(l.history) then 1 else 0) + Retries(l.history)
    && (!Started(l.history) ==> Retries(l.history) == 0)
  }

  predicate Named(ops: seq<Op>) {
    forall op | op in ops :: !op.Move?
  }

  /** Exactly when the counter counts: `transition` to running can start a task without any `start` counting it. */
  lemma CountsExactly(max: nat, ops: seq<Op>)
    requires max >= 1
    ensures Counts(After(New(max), ops)) <==> (Started(After(New(max), ops).history) ==> Counted(max, ops))
  {
    StartsExactly(max, ops);
    StartedIsSomeStart(After(New(max), ops).history);
  }

  /** Running the task by its named operations counts the first start. */
  lemma {:induction false} NamedCounts(max: nat, ops: seq<Op>)
    requires max >= 1 && Named(ops)
    ensures Started(After(New(max), ops).history) ==> Counted(max, ops)
  {
    if ops != [] {
      var front, op := ops[..|ops| - 1], ops[|ops| - 1];
      var l := After(New(max), front);
      NamedCounts(max, front);
      StartsExactly(max, front);
      StepEntry(l, op);
      StartedIsSomeStart(l.history);
      StartedAppend(l.history, Entry(l.state, Next(l, op).state, op == Retry));
    }
  }

  lemma StartedAppend(history: seq<Entry>, e: Entry)
    ensures Started(history + [e]) <==> Started(history) || e.to == Running
  {
    assert (history + [e])[..|history|] == history;
  }

  /** So, with the named operations, at most `maxAttempts - 1` retries ever succeed. */
  lemma AttemptsCountRetries(max: nat, ops: seq<Op>)
    requires max >= 1 && Named(ops)
    ensures Counts(After(New(max), ops)) && Valid(After(New(max), ops))
    ensures Retries(After(New(max), ops).history) <= max - 1
  {
    StartsExactly(max, ops);
    NamedCounts(max, ops);
    CountsExactly(max, ops);
    StartedIsSomeStart(After(New(max), ops).history);
  }

  /** `transition` to running on a new task leaves it running at attempt zero. */
  lemma MoveIsNotCounted(max: nat)
    requires max >= 1
    ensures var l := After(New(max), [MarkReady, Move(Running)]);
            l.state == Running && l.attempt == 0 && !Counts(l) && !Valid(l)
  {
    assert [] + [MarkReady] == [MarkReady] && [MarkReady] + [Move(Running)] == [MarkReady, Move(Running)];
    AfterOne(New(max), [], MarkReady);
    AfterOne(New(max), [MarkReady], Move(Running));
    var ready := Go(New(max), Ready, false).value;
    StartedAppend(ready.history, Entry(Ready, Running, false));
  }

  /** Completing again is harmless and never fails. */
  lemma CompleteIsIdempotent(l: Life, outputs: bool, again: bool)
    requires DoComplete(l, outputs).Ok?
    ensures DoComplete(DoComplete(l, outputs).value, again) == DoComplete(l, outputs)
  {
  }

  // ----- two things the operations do not promise

  /** The round that gets back to ready without `retry`. */
  function Cycles(n: nat): seq<Op> {
    if n == 0 then [] else Cycles(n - 1) + [MarkReady] + [Start(true, None)] + [Fail(true)]
  }

  lemma AfterOne(l: Life, ops: seq<Op>, op: Op)
    ensures After(l, ops + [op]) == Next(After(l, ops), op)
  {
    assert (ops + [op])[..|ops|] == ops;
  }

  /** One round: from ready-able to failed, without touching the attempt counter once it is set. */
  lemma CycleEffect(l: Life)
    requires l.state == Pending || l.state == Failed
    ensures var m := Next(Next(Next(l, MarkReady), Start(true, None)), Fail(true));
            && m.state == Failed && m.attempt == (if l.attempt == 0 then 1 else l.attempt) && m.maxAttempts == l.maxAttempts
            && m.history == l.history + [Entry(l.state, Ready, false)] + [Entry(Ready, Running, false)] + [Entry(Running, Failed, false)]
  {
  }

  /** `mark_ready` from failed is an allowed transition that bypasses `retry`: any number of starts pass a limit of one. */
  lemma {:induction false} MarkReadyBypassesRetry(n: nat)
    requires n >= 1
    ensures var l := After(New(1), Cycles(n));
            l.attempt == 1 == l.maxAttempts && l.state == Failed && Starts(l.history) == n && Bypasses(l.history) == n - 1
  {
    var ops, l := Cycles(n - 1), After(New(1), Cycles(n - 1));
    if n > 1 { MarkReadyBypassesRetry(n - 1); }
    AfterOne(New(1), ops, MarkReady);
    AfterOne(New(1), ops + [MarkReady], Start(true, None));
    AfterOne(New(1), ops + [MarkReady] + [Start(true, None)], Fail(true));
    CycleEffect(l);
    var once := l.history + [Entry(l.state, Ready, false)];
    SumsAppend(l.history, Entry(l.state, Ready, false));
    SumsAppend(once, Entry(Ready, Running, false));
    SumsAppend(once + [Entry(Ready, Running, false)], Entry(Running, Failed, false));
  }

  lemma {:induction false} UnreportedUntilCompleted(max: nat, ops: seq<Op>)
    requires max >= 1
    ensures After(New(max), ops).reported ==> After(New(max), ops).state == Completed
  {
    if ops != [] {
      UnreportedUntilCompleted(max, ops[..|ops| - 1]);
    }
  }

  /**
    A running task that started fresh has no final report yet, so orphan recovery fails it
    whatever its heartbeat and the timeout are.
  */
  lemma RecoveryIgnoresHeartbeat(max: nat, ops: seq<Op>, now: int, timeout: nat)
    requires max >= 1 && After(New(max), ops).state == Running
    ensures var l := After(New(max), ops);
            Next(l, RecoverOrphan(now, timeout)).state == Failed && Next(l, RecoverOrphan(now, timeout)).retryable
  {
    UnreportedUntilCompleted(max, ops);
  }

  /** A resumed task keeps its history but has running turned into ready. */
  function Resumed(l: Life): Life {
    if l.state == Running then l.(state := Ready) else l
  }

  /** Resuming keeps the history a path to the current state exactly when the task was not running. */
  lemma ResumedPathExactly(l: Life, ops: seq<Op>)
    requires Bounded(l) && l.history == [] && l.state != Running
    ensures var m := After(l, ops);
            Path(l.state, Resumed(m).history, Resumed(m).state) <==> m.state != Running
  {
    HistoryIsPath(l, ops);
    var m := After(l, ops);
    if m.state == Running {
      assert m.history != [];
    }
  }

  // ----- the task itself

  class TaskLifecycle {
    var state: State
    var attempt: nat
    const maxAttempts: nat
    var retryable: bool
    var heartbeat: Option<int>
    var startedAt: Option<int>
    var reported: bool
    var history: seq<Entry>
    ghost var ops: seq<Op>

    ghost function View(): Life
      reads this
    {
      Life(state, attempt, maxAttempts, retryable, heartbeat, startedAt, reported, history)
    }

    ghost predicate Valid()
      reads this
    {
      maxAttempts >= 1 && View() == After(New(maxAttempts), ops)
    }

    constructor (maxAttempts: nat)
      requires maxAttempts >= 1
      ensures Valid() && ops == [] && this.maxAttempts == maxAttempts
    {
      this.maxAttempts := maxAttempts;
      state, attempt, retryable, heartbeat, startedAt, reported, history := Pending, 0, true, None, None, false, [];
      ops := [];
    }

    ghost method Performed(op: Op)
      requires maxAttempts >= 1 && View() == Next(After(New(maxAttempts), ops), op)
      modifies this`ops
      ensures ops == old(ops) + [op] && Valid()
    {
      AfterOne(New(maxAttempts), ops, op);
      ops := ops + [op];
    }

    method Transition(target: State, retry: bool) returns (r: Result<(), Error>)
      modifies this`state, this`history
      ensures r.Ok? <==> Allowed(old(state), target)
      ensures if r.Ok? then Go(old(View()), target, retry) == Ok(View()) else View() == old(View()) && r == Err(InvalidTransition)
    {
      if !Allowed(state, target) { return Err(InvalidTransition); }
      history := history + [Entry(state, target, retry)];
      state := target;
      r := Ok(());
    }

    /** `transition` as a caller's own operation. */
    method MoveNow(target: State) returns (r: Result<(), Error>)
      requires Valid()
      modifies this
      ensures Valid() && ops == old(ops) + [Move(target)]
      ensures View() == Next(old(View()), Move(target)) && (r.Ok? <==> Allowed(old(state), target))
    {
      r := Transition(target, false);
      Performed(Move(target));
    }

    method MarkReadyNow() returns (r: Result<(), Error>)
      requires Valid()
      modifies this
      ensures Valid() && ops == old(ops) + [MarkReady]
      ensures View() == Next(old(View()), MarkReady) && (r.Ok? <==> Apply(old(View()), MarkReady).Ok?)
    {
      r := Transition(Ready, false);
      Performed(MarkReady);
    }

    method StartNow(agent: bool, now: Option<int>) returns (r: Result<(), Error>)
      requires Valid()
      modifies this
      ensures Valid() && ops == old(ops) + [Start(agent, now)]
      ensures View() == Next(old(View()), Start(agent, now)) && (r.Ok? <==> Apply(old(View()), Start(agent, now)).Ok?)
    {
      if !agent {
        r := Err(MissingReason);
      } else {
        r := Transition(Running, false);
        if r.Ok? {
          if attempt == 0 { attempt := 1; }
          if now.Some? { startedAt, heartbeat := now, now; }
        }
      }
      Performed(Start(agent, now));
    }

    method BeatNow(now: int) returns (r: Result<(), Error>)
      requires Valid()
      modifies this
      ensures Valid() && ops == old(ops) + [Beat(now)]
      ensures View() == Next(old(View()), Beat(now)) && (r.Ok? <==> Apply(old(View()), Beat(now)).Ok?)
    {
      if state != Running {
        r := Err(InvalidTransition);
      } else {
        heartbeat := Some(now);
        r := Ok(());
      }
      Performed(Beat(now));
    }

    method CompleteNow(outputs: bool) returns (r: Result<(), Error>)
      requires Valid()
      modifies this
      ensures Valid() && ops == old(ops) + [Complete(outputs)]
      ensures View() == Next(old(View()), Complete(outputs)) && (r.Ok? <==> Apply(old(View()), Complete(outputs)).Ok?)
    {
      r := Ok(());
      if state == Completed {
      } else if state != Running {
        r := Err(InvalidTransition);
      } else if !outputs {
        r := Err(CompletionError);
      } else {
        reported := true;
        r := Transition(Completed, false);
      }
      Performed(Complete(outputs));
    }

    method FailNow(retryable: bool) returns (r: Result<(), Error>)
      requires Valid()
      modifies this
      ensures Valid() && ops == old(ops) + [Fail(retryable)]
      ensures View() == Next(old(View()), Fail(retryable)) && (r.Ok? <==> Apply(old(View()), Fail(retryable)).Ok?)
    {
      if state != Running {
        r := Err(InvalidTransition);
      } else {
        this.retryable := retryable;
        r := Transition(Failed, false);
      }
      Performed(Fail(retryable));
    }

    method RetryNow() returns (r: Result<(), Error>)
      requires Valid()
      modifies this
      ensures Valid() && ops == old(ops) + [Retry]
      ensures View() == Next(old(View()), Retry) && (r.Ok? <==> Apply(old(View()), Retry).Ok?)
    {
      if state != Failed {
        r := Err(InvalidTransition);
      } else if attempt >= maxAttempts || !retryable {
        r := Err(RetryExhausted);
      } else {
        attempt := attempt + 1;
        r := Transition(Ready, true);
      }
      Performed(Retry);
    }

    /** Block or skip, for a reason. */
    method StopNow(skip: bool, reason: bool) returns (r: Result<(), Error>)
      requires Valid()
      modifies this
      ensures var op := if skip then Skip(reason) else Block(reason);
              && Valid() && ops == old(ops) + [op]
              && View() == Next(old(View()), op) && (r.Ok? <==> Apply(old(View()), op).Ok?)
    {
      if !reason {
        r := Err(MissingReason);
      } else {
        r := Transition(if skip then Skipped else Blocked, false);
      }
      Performed(if skip then Skip(reason) else Block(reason));
    }

    method RecoverOrphanNow(now: int, timeout: nat) returns (recovered: bool)
      requires Valid()
      modifies this
      ensures Valid() && ops == old(ops) + [RecoverOrphan(now, timeout)]
      ensures View() == Next(old(View()), RecoverOrphan(now, timeout))
      ensures recovered <==> old(state) == Running && Orphaned(old(View()), now, timeout)
    {
      recovered := false;
      if state == Running {
        var reference := if heartbeat.Some? then heartbeat else startedAt;
        if !reported || reference == None || now - reference.value >= timeout {
          retryable := true;
          var r := Transition(Failed, false);
          recovered := true;
        }
      }
      Performed(RecoverOrphan(now, timeout));
    }
  }
}
