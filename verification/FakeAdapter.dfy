/**
  The fake agent runtime: one session that is prepared, executed at most once, cancelled, handed off and cleaned up.

  Every operation runs under one lock, except `execute`, which takes the lock three times: it reserves its idempotency
  key, later commits, and finally releases the key.  Anything may happen between these three steps.
*/
module FakeAdapter {
  import opened Wrappers

  datatype Status = Ready | Succeeded | Failed | TimedOut | Cancelled

  datatype Kind = PreparingEvent | ReadyEvent | RunningEvent | CancellingEvent | FinalEvent(status: Status)

  datatype Event = Event(sequence: nat, kind: Kind)

  datatype Operation = OpPrepare | OpExecute | OpCancel | OpHandoff | OpCleanup

  datatype Key = Key(operation: Operation, idempotencyKey: string)

  datatype Lineage = Lineage(runId: string, taskId: string, attemptId: string, workspaceId: string, handle: Option<nat>)

  datatype Answer =
    | Prepared(sequence: nat, handle: nat)
    | Executed(sequence: nat, status: Status, dispatchCount: nat)
    | Cancellation(sequence: nat, status: Status, confirmed: bool)
    | HandedOff(sequence: nat, status: Status)
    | CleanedUp(sequence: nat, original: Status, confirmed: bool)

  datatype Error =
    | Malformed
    | InvalidLineage
    | OwnerMismatch
    | StaleGeneration
    | StaleHandle
    | InvalidTransition
    | IdempotencyConflict
    | ReplayInProgress
    | ForbiddenField
    | InvalidCursor

  /** What a step tells its caller; `Waiting` is an execute that has reserved its key, `Nothing` says nothing. */
  datatype Reply = Done(answer: Answer) | Refused(error: Error) | Waiting | Nothing

  /**
    `fingerprint` is what the caller claims and `derived` what the runtime computes from the request.
    `wellFormed` stands for the field checks that come before anything else.
  */
  datatype Request = Request(
    wellFormed: bool,
    idempotencyKey: string,
    fingerprint: string,
    derived: string,
    lineage: Lineage,
    owner: string,
    generation: nat)

  datatype Stored = Stored(fingerprint: string, answer: Answer)

  datatype Record = Record(
    lineage: Lineage,
    owner: string,
    generation: nat,
    status: Status,
    dispatchCount: nat,
    events: seq<Event>,
    replay: map<Key, Stored>,
    cleanup: Option<Answer>)

  /** `pending` holds the executes between reserve and commit, `releasing` the keys between commit and release. */
  datatype State = State(
    outcome: Status,
    nextHandle: nat,
    record: Option<Record>,
    pending: map<string, Request>,
    releasing: set<string>)

  datatype Step =
    | Prepare(request: Request, workspaceOk: bool)
    | ExecuteReserve(request: Request)
    | ExecuteCommit(idempotencyKey: string)
    | ExecuteRelease(idempotencyKey: string)
    | Cancel(request: Request, confirm: bool)
    | Handoff(request: Request)
    | Cleanup(request: Request, succeed: bool)

  predicate Outcome(s: Status) {
    s == Succeeded || s == Failed || s == TimedOut
  }

  predicate Terminal(s: Status) {
    s != Ready
  }

  function Initial(outcome: Status): State {
    State(outcome, 1, None, map[], {})
  }

  // ----- shared checks

  function InFlight(s: State): set<string> {
    s.pending.Keys + s.releasing
  }

  predicate FingerprintOk(s: State, op: Operation, q: Request) {
    q.fingerprint == q.derived || (s.record.Some? && Key(op, q.idempotencyKey) in s.record.value.replay)
  }

  predicate SameAttempt(r: Record, lineage: Lineage) {
    && lineage.runId == r.lineage.runId
    && lineage.taskId == r.lineage.taskId
    && lineage.attemptId == r.lineage.attemptId
    && lineage.workspaceId == r.lineage.workspaceId
  }

  function IdentityError(r: Record, q: Request, requireHandle: bool): Option<Error> {
    if !SameAttempt(r, q.lineage) then Some(InvalidLineage)
    else if q.owner != r.owner then Some(OwnerMismatch)
    else if q.generation != r.generation then Some(StaleGeneration)
    else if requireHandle && q.lineage.handle != r.lineage.handle then Some(StaleHandle)
    else None
  }

  /** The checks every operation but `prepare` makes before it looks at its own state. */
  function AdmissionError(s: State, op: Operation, q: Request): Option<Error> {
    if !q.wellFormed then Some(Malformed)
    else if !FingerprintOk(s, op, q) then Some(ForbiddenField)
    else if s.record == None then Some(InvalidLineage)
    else IdentityError(s.record.value, q, true)
  }

  /** The stored answer for this key, or a conflict, or nothing when the key is new. */
  function Replayed(r: Record, op: Operation, q: Request): Reply {
    var key := Key(op, q.idempotencyKey);
    if key !in r.replay then Nothing
    else if r.replay[key].fingerprint != q.fingerprint then Refused(IdempotencyConflict)
    else Done(r.replay[key].answer)
  }

  function Remember(r: Record, op: Operation, q: Request, a: Answer): Record {
    r.(replay := r.replay[Key(op, q.idempotencyKey) := Stored(q.fingerprint, a)])
  }

  function Emit(r: Record, kind: Kind): Record {
    r.(events := r.events + [Event(|r.events| + 1, kind)])
  }

  // ----- operations

  function DoPrepare(s: State, q: Request, workspaceOk: bool): (State, Reply) {
    if !q.wellFormed then (s, Refused(Malformed))
    else if !FingerprintOk(s, OpPrepare, q) then (s, Refused(ForbiddenField))
    else if s.record.Some? then
      if q.lineage.handle != None then (s, Refused(InvalidLineage))
      else if IdentityError(s.record.value, q, false).Some? then
        (s, Refused(IdentityError(s.record.value, q, false).value))
      else
        var again := Replayed(s.record.value, OpPrepare, q);
        (s, if again == Nothing then Refused(InvalidTransition) else again)
    else if q.lineage.handle != None || !workspaceOk then (s, Refused(InvalidLineage))
    else
      var fresh0 := Record(q.lineage.(handle := Some(s.nextHandle)), q.owner, q.generation, Ready, 0, [], map[], None);
      var ready := Emit(Emit(fresh0, PreparingEvent), ReadyEvent);
      var answer := Prepared(|ready.events|, s.nextHandle);
      (s.(nextHandle := s.nextHandle + 1, record := Some(Remember(ready, OpPrepare, q, answer))), Done(answer))
  }

  function DoReserve(s: State, q: Request): (State, Reply) {
    if AdmissionError(s, OpExecute, q).Some? then (s, Refused(AdmissionError(s, OpExecute, q).value))
    else
      var again := Replayed(s.record.value, OpExecute, q);
      if again != Nothing then (s, again)
      else if q.idempotencyKey in InFlight(s) then (s, Refused(ReplayInProgress))
      else if s.record.value.status != Ready then (s, Refused(InvalidTransition))
      else (s.(pending := s.pending[q.idempotencyKey := q]), Waiting)
  }

  function DoCommit(s: State, k: string): (State, Reply) {
    if k !in s.pending then (s, Nothing)
    else
      var q := s.pending[k];
      var moved := s.(pending := s.pending - {k}, releasing := s.releasing + {k});
      if s.record == None then (moved, Refused(InvalidLineage))
      else if s.record.value.status != Ready then (moved, Refused(InvalidTransition))
      else
        var ran := Emit(s.record.value.(dispatchCount := s.record.value.dispatchCount + 1), RunningEvent);
        var ended := Emit(ran.(status := s.outcome), FinalEvent(s.outcome));
        var answer := Executed(|ended.events|, ended.status, ended.dispatchCount);
        (moved.(record := Some(Remember(ended, OpExecute, q, answer))), Done(answer))
  }

  function DoRelease(s: State, k: string): (State, Reply) {
    (s.(releasing := s.releasing - {k}), Nothing)
  }

  function DoCancel(s: State, q: Request, confirm: bool): (State, Reply) {
    if AdmissionError(s, OpCancel, q).Some? then (s, Refused(AdmissionError(s, OpCancel, q).value))
    else
      var r := s.record.value;
      var again := Replayed(r, OpCancel, q);
      if again != Nothing then (s, again)
      else if r.status == Succeeded then (s, Refused(InvalidTransition))
      else if Terminal(r.status) then
        var answer := Cancellation(|r.events|, r.status, r.status == Cancelled);
        (s.(record := Some(Remember(r, OpCancel, q, answer))), Done(answer))
      else
        var final := if confirm then Cancelled else Failed;
        var cancelling := Emit(r, CancellingEvent);
        var answer := Cancellation(|r.events| + if confirm then 2 else 1, final, confirm);
        var ended := Emit(cancelling.(status := final), FinalEvent(final));
        (s.(record := Some(Remember(ended, OpCancel, q, answer))), Done(answer))
  }

  function DoHandoff(s: State, q: Request): (State, Reply) {
    if AdmissionError(s, OpHandoff, q).Some? then (s, Refused(AdmissionError(s, OpHandoff, q).value))
    else
      var r := s.record.value;
      var again := Replayed(r, OpHandoff, q);
      if again != Nothing then (s, again)
      else if InFlight(s) != {} then (s, Refused(ReplayInProgress))
      else
        var answer := HandedOff(|r.events| + 1, r.status);
        (s.(record := Some(Remember(r, OpHandoff, q, answer))), Done(answer))
  }

  function DoCleanup(s: State, q: Request, succeed: bool): (State, Reply) {
    if AdmissionError(s, OpCleanup, q).Some? then (s, Refused(AdmissionError(s, OpCleanup, q).value))
    else
      var r := s.record.value;
      var again := Replayed(r, OpCleanup, q);
      if again != Nothing then (s, again)
      else if !Terminal(r.status) then (s, Refused(InvalidTransition))
      else
        var answer := if r.cleanup.Some? then r.cleanup.value else CleanedUp(|r.events|, r.status, succeed);
        var marked := if r.cleanup == None && succeed then r.(cleanup := Some(answer)) else r;
        (s.(record := Some(Remember(marked, OpCleanup, q, answer))), Done(answer))
  }

  function Perform(s: State, step: Step): (State, Reply) {
    match step
    case Prepare(q, workspaceOk) => DoPrepare(s, q, workspaceOk)
    case ExecuteReserve(q) => DoReserve(s, q)
    case ExecuteCommit(k) => DoCommit(s, k)
    case ExecuteRelease(k) => DoRelease(s, k)
    case Cancel(q, confirm) => DoCancel(s, q, confirm)
    case Handoff(q) => DoHandoff(s, q)
    case Cleanup(q, succeed) => DoCleanup(s, q, succeed)
  }

  function After(outcome: Status, run: seq<Step>): State {
    if run == [] then Initial(outcome) else Perform(After(outcome, run[..|run| - 1]), run[|run| - 1]).0
  }

  lemma AfterOne(outcome: Status, run: seq<Step>, step: Step)
    ensures After(outcome, run + [step]) == Perform(After(outcome, run), step).0
  {
    assert (run + [step])[..|run|] == run;
  }

  /** What the caller of step `i` is told. */
  function ReplyTo(outcome: Status, run: seq<Step>, i: nat): Reply
    requires i < |run|
  {
    Perform(After(outcome, run[..i]), run[i]).1
  }

  // ----- what every interleaving keeps

  /** The whole event log, for each status the session can be in. */
  function Story(outcome: Status, dispatched: bool, status: Status): seq<Event> {
    [Event(1, PreparingEvent), Event(2, ReadyEvent)] +
    if status == Ready then []
    else [Event(3, if dispatched then RunningEvent else CancellingEvent), Event(4, FinalEvent(status))]
  }

  ghost predicate RecordInv(outcome: Status, r: Record) {
    && r.dispatchCount <= 1
    && r.events == Story(outcome, r.dispatchCount == 1, r.status)
    && (r.dispatchCount == 1 ==> r.status == outcome)
    && (r.dispatchCount == 0 ==> r.status == Ready || r.status == Cancelled || r.status == Failed)
    && AnswersInv(r)
  }

  /** A stored answer describes the session as it is now. */
  ghost predicate Fits(r: Record, op: Operation, a: Answer) {
    match op
    case OpPrepare => a.Prepared? && a.sequence == 2 && Some(a.handle) == r.lineage.handle
    case OpExecute => a == Executed(4, r.status, 1) && r.dispatchCount == 1
    case OpCancel => a.Cancellation? && Terminal(r.status) && r.status != Succeeded && a.status == r.status
                     && a.confirmed == (r.status == Cancelled)
    case OpHandoff => a.HandedOff? && (a.status == r.status || a.status == Ready)
    case OpCleanup => a.CleanedUp? && Terminal(r.status) && a.original == r.status && a.sequence == 4
                      && (a.confirmed ==> r.cleanup == Some(a))
  }

  ghost predicate AnswersInv(r: Record) {
    && (forall k | k in r.replay :: Fits(r, k.operation, r.replay[k].answer))
    && (r.cleanup.Some? ==> Fits(r, OpCleanup, r.cleanup.value) && r.cleanup.value.confirmed)
  }

  ghost predicate KeysInv(s: State) {
    && s.pending.Keys !! s.releasing
    && (forall k | k in s.pending :: s.pending[k].idempotencyKey == k)
    && (s.record == None ==> InFlight(s) == {})
    && (s.record.Some? ==> forall k | k in s.pending :: Key(OpExecute, k) !in s.record.value.replay)
  }

  ghost predicate Inv(s: State) {
    && Outcome(s.outcome)
    && (s.record.Some? ==> RecordInv(s.outcome, s.record.value))
    && KeysInv(s)
  }

  /** How one step may change what has been recorded. */
  ghost predicate Grows(before: State, after: State) {
    && after.outcome == before.outcome
    && (before.record.Some? ==> after.record.Some? && RecordGrows(before.record.value, after.record.value))
  }

  ghost predicate RecordGrows(b: Record, a: Record) {
    && a.lineage == b.lineage && a.owner == b.owner && a.generation == b.generation
    && b.events <= a.events
    && (Terminal(b.status) ==> a.status == b.status && a.events == b.events && a.dispatchCount == b.dispatchCount)
    && (b.cleanup.Some? ==> a.cleanup == b.cleanup)
    && (forall k | k in b.replay :: k in a.replay && a.replay[k] == b.replay[k])
  }

  /** Replacing the record by one that grew from it, with no new answer for an execute. */
  lemma SwapKeeps(s: State, r: Record)
    requires Inv(s) && s.record.Some? && RecordInv(s.outcome, r) && RecordGrows(s.record.value, r)
    requires forall k | k in r.replay && k !in s.record.value.replay :: k.operation != OpExecute
    ensures Inv(s.(record := Some(r))) && Grows(s, s.(record := Some(r)))
  {
  }

  lemma RememberKeeps(outcome: Status, r: Record, op: Operation, q: Request, a: Answer)
    requires RecordInv(outcome, r) && Fits(r, op, a) && Key(op, q.idempotencyKey) !in r.replay
    ensures RecordInv(outcome, Remember(r, op, q, a)) && RecordGrows(r, Remember(r, op, q, a))
  {
    var next := Remember(r, op, q, a);
    forall k | k in next.replay
      ensures Fits(next, k.operation, next.replay[k].answer)
    {
      assert k in r.replay ==> Fits(r, k.operation, r.replay[k].answer);
    }
  }

  function EndedByCancel(r: Record, final: Status): Record {
    Emit(Emit(r, CancellingEvent).(status := final), FinalEvent(final))
  }

  lemma CancelEnds(outcome: Status, r: Record, final: Status)
    requires Outcome(outcome) && RecordInv(outcome, r) && r.status == Ready && (final == Cancelled || final == Failed)
    ensures RecordInv(outcome, EndedByCancel(r, final)) && RecordGrows(r, EndedByCancel(r, final))
  {
    var next := EndedByCancel(r, final);
    forall k | k in next.replay
      ensures Fits(next, k.operation, next.replay[k].answer)
    {
      assert Fits(r, k.operation, r.replay[k].answer);
    }
  }

  lemma RecordGrowsOn(a: Record, b: Record, c: Record)
    requires RecordGrows(a, b) && RecordGrows(b, c)
    ensures RecordGrows(a, c)
  {
  }

  lemma PrepareKeeps(s: State, q: Request, workspaceOk: bool)
    requires Inv(s)
    ensures Inv(DoPrepare(s, q, workspaceOk).0) && Grows(s, DoPrepare(s, q, workspaceOk).0)
  {
  }

  lemma ReserveKeeps(s: State, q: Request)
    requires Inv(s)
    ensures Inv(DoReserve(s, q).0) && Grows(s, DoReserve(s, q).0)
  {
  }

  lemma CommitKeeps(s: State, k: string)
    requires Inv(s)
    ensures Inv(DoCommit(s, k).0) && Grows(s, DoCommit(s, k).0)
  {
  }

  lemma CancelKeeps(s: State, q: Request, confirm: bool)
    requires Inv(s)
    ensures Inv(DoCancel(s, q, confirm).0) && Grows(s, DoCancel(s, q, confirm).0)
  {
    if DoCancel(s, q, confirm).0 != s {
      var r, final := s.record.value, if confirm then Cancelled else Failed;
      var ended := if Terminal(r.status) then r else EndedByCancel(r, final);
      var answer := DoCancel(s, q, confirm).1.answer;
      if !Terminal(r.status) { CancelEnds(s.outcome, r, final); }
      RememberKeeps(s.outcome, ended, OpCancel, q, answer);
      RecordGrowsOn(r, ended, Remember(ended, OpCancel, q, answer));
      SwapKeeps(s, Remember(ended, OpCancel, q, answer));
    }
  }

  lemma HandoffKeeps(s: State, q: Request)
    requires Inv(s)
    ensures Inv(DoHandoff(s, q).0) && Grows(s, DoHandoff(s, q).0)
  {
    if DoHandoff(s, q).0 != s {
      var r, answer := s.record.value, DoHandoff(s, q).1.answer;
      RememberKeeps(s.outcome, r, OpHandoff, q, answer);
      SwapKeeps(s, Remember(r, OpHandoff, q, answer));
    }
  }

  lemma CleanupKeeps(s: State, q: Request, succeed: bool)
    requires Inv(s)
    ensures Inv(DoCleanup(s, q, succeed).0) && Grows(s, DoCleanup(s, q, succeed).0)
  {
    if DoCleanup(s, q, succeed).0 != s {
      var r, answer := s.record.value, DoCleanup(s, q, succeed).1.answer;
      var marked := if r.cleanup == None && succeed then r.(cleanup := Some(answer)) else r;
      MarkKeeps(s.outcome, r, answer);
      RememberKeeps(s.outcome, marked, OpCleanup, q, answer);
      RecordGrowsOn(r, marked, Remember(marked, OpCleanup, q, answer));
      SwapKeeps(s, Remember(marked, OpCleanup, q, answer));
    }
  }

  /** Recording the first successful cleanup. */
  lemma MarkKeeps(outcome: Status, r: Record, answer: Answer)
    requires RecordInv(outcome, r) && Terminal(r.status)
    ensures answer == CleanedUp(|r.events|, r.status, true) && r.cleanup == None ==>
              RecordInv(outcome, r.(cleanup := Some(answer))) && RecordGrows(r, r.(cleanup := Some(answer)))
  {
    var next := r.(cleanup := Some(answer));
    forall k | k in next.replay
      ensures answer == CleanedUp(|r.events|, r.status, true) && r.cleanup == None ==> Fits(next, k.operation, next.replay[k].answer)
    {
      assert Fits(r, k.operation, r.replay[k].answer);
    }
  }

  lemma StepKeeps(s: State, step: Step)
    requires Inv(s)
    ensures Inv(Perform(s, step).0) && Grows(s, Perform(s, step).0)
  {
    match step
    case Prepare(q, workspaceOk) => PrepareKeeps(s, q, workspaceOk);
    case ExecuteReserve(q) => ReserveKeeps(s, q);
    case ExecuteCommit(k) => CommitKeeps(s, k);
    case ExecuteRelease(k) =>
    case Cancel(q, confirm) => CancelKeeps(s, q, confirm);
    case Handoff(q) => HandoffKeeps(s, q);
    case Cleanup(q, succeed) => CleanupKeeps(s, q, succeed);
  }

  lemma {:induction false} Reachable(outcome: Status, run: seq<Step>)
    requires Outcome(outcome)
    ensures Inv(After(outcome, run)) && After(outcome, run).outcome == outcome
  {
    if run != [] {
      Reachable(outcome, run[..|run| - 1]);
      StepKeeps(After(outcome, run[..|run| - 1]), run[|run| - 1]);
    }
  }

  lemma {:induction false} History(outcome: Status, run: seq<Step>, more: seq<Step>)
    requires Outcome(outcome)
    ensures Grows(After(outcome, run), After(outcome, run + more))
    decreases |more|
  {
    if more == [] {
      assert run + more == run;
    } else {
      var shorter := run + more[..|more| - 1];
      assert (run + more)[..|run + more| - 1] == shorter;
      History(outcome, run, more[..|more| - 1]);
      Reachable(outcome, shorter);
      StepKeeps(After(outcome, shorter), more[|more| - 1]);
    }
  }

  // ----- at most one dispatch

  predicate Dispatched(s: State) {
    s.record.Some? && exists e | e in s.record.value.events :: e.kind == RunningEvent
  }

  function Dispatches(s: State): nat {
    if s.record.Some? then s.record.value.dispatchCount else 0
  }

  /** Under every interleaving the agent is dispatched at most once, and the event log says so exactly. */
  lemma AtMostOneDispatch(outcome: Status, run: seq<Step>)
    requires Outcome(outcome)
    ensures Dispatches(After(outcome, run)) == if Dispatched(After(outcome, run)) then 1 else 0
    ensures After(outcome, run).record.Some? ==>
              var r := After(outcome, run).record.value;
              r.events == Story(outcome, Dispatched(After(outcome, run)), r.status)
  {
    Reachable(outcome, run);
    var s := After(outcome, run);
    if s.record.Some? && s.record.value.dispatchCount == 1 {
      assert s.record.value.events[2].kind == RunningEvent;
    }
  }

  /** The number of executes whose commit answered a result. */
  function Commits(outcome: Status, run: seq<Step>): nat {
    if run == [] then 0
    else
      Commits(outcome, run[..|run| - 1]) +
      if run[|run| - 1].ExecuteCommit? && ReplyTo(outcome, run, |run| - 1).Done? then 1 else 0
  }

  /** Of all the executes racing for the session, the number that win is the number of dispatches: none or one. */
  lemma {:induction false} OneWinner(outcome: Status, run: seq<Step>)
    requires Outcome(outcome)
    ensures Commits(outcome, run) == Dispatches(After(outcome, run)) <= 1
  {
    if run != [] {
      var past := run[..|run| - 1];
      OneWinner(outcome, past);
      Reachable(outcome, past);
      Reachable(outcome, run);
      DispatchStep(After(outcome, past), run[|run| - 1]);
    }
  }

  lemma DispatchStep(s: State, step: Step)
    requires Inv(s)
    ensures Dispatches(Perform(s, step).0) ==
            Dispatches(s) + if step.ExecuteCommit? && Perform(s, step).1.Done? then 1 else 0
  {
  }

  /** A terminal session stays as it is: no event is added, the status does not change, nothing is dispatched. */
  lemma TerminalForever(outcome: Status, run: seq<Step>, more: seq<Step>)
    requires Outcome(outcome)
    requires After(outcome, run).record.Some? && Terminal(After(outcome, run).record.value.status)
    ensures After(outcome, run + more).record.Some?
    ensures var b, a := After(outcome, run).record.value, After(outcome, run + more).record.value;
            a.status == b.status && a.events == b.events && a.dispatchCount == b.dispatchCount
  {
    History(outcome, run, more);
  }

  // ----- answers

  function KeyOf(step: Step): Option<Key> {
    match step
    case Prepare(q, _) => Some(Key(OpPrepare, q.idempotencyKey))
    case ExecuteReserve(q) => Some(Key(OpExecute, q.idempotencyKey))
    case ExecuteCommit(k) => Some(Key(OpExecute, k))
    case ExecuteRelease(_) => None
    case Cancel(q, _) => Some(Key(OpCancel, q.idempotencyKey))
    case Handoff(q) => Some(Key(OpHandoff, q.idempotencyKey))
    case Cleanup(q, _) => Some(Key(OpCleanup, q.idempotencyKey))
  }

  ghost predicate Remembers(s: State, step: Step, a: Answer) {
    && KeyOf(step).Some?
    && s.record.Some?
    && KeyOf(step).value in s.record.value.replay
    && s.record.value.replay[KeyOf(step).value].answer == a
  }

  lemma AnswerIsStored(s: State, step: Step)
    requires Inv(s) && Perform(s, step).1.Done?
    ensures Remembers(Perform(s, step).0, step, Perform(s, step).1.answer)
  {
    match step
    case Prepare(q, workspaceOk) =>
    case ExecuteReserve(q) =>
    case ExecuteCommit(k) =>
    case ExecuteRelease(k) =>
    case Cancel(q, confirm) =>
    case Handoff(q) =>
    case Cleanup(q, succeed) =>
  }

  lemma AnswerIsKept(outcome: Status, run: seq<Step>, i: nat)
    requires Outcome(outcome) && i < |run| && ReplyTo(outcome, run, i).Done?
    ensures Remembers(After(outcome, run), run[i], ReplyTo(outcome, run, i).answer)
  {
    var through := run[..i + 1];
    assert through[..i] == run[..i];
    Reachable(outcome, run[..i]);
    AnswerIsStored(After(outcome, run[..i]), run[i]);
    History(outcome, through, run[i + 1..]);
    assert through + run[i + 1..] == run;
  }

  /** Whatever else interleaves, a key never gets two different answers. */
  lemma SameKeySameAnswer(outcome: Status, run: seq<Step>, i: nat, j: nat)
    requires Outcome(outcome) && i < |run| && j < |run|
    requires ReplyTo(outcome, run, i).Done? && ReplyTo(outcome, run, j).Done?
    requires KeyOf(run[i]) == KeyOf(run[j])
    ensures ReplyTo(outcome, run, i) == ReplyTo(outcome, run, j)
  {
    AnswerIsKept(outcome, run, i);
    AnswerIsKept(outcome, run, j);
  }

  /** Every answer ever given about how the session ended is still true of the session now. */
  lemma AnswersStayTrue(outcome: Status, run: seq<Step>, i: nat)
    requires Outcome(outcome) && i < |run| && ReplyTo(outcome, run, i).Done?
    ensures KeyOf(run[i]).Some? && After(outcome, run).record.Some?
    ensures Fits(After(outcome, run).record.value, KeyOf(run[i]).value.operation, ReplyTo(outcome, run, i).answer)
  {
    AnswerIsKept(outcome, run, i);
    Reachable(outcome, run);
  }

  /** A cancel that answers before any execute has committed means the agent is never dispatched. */
  lemma CancelBeforeCommit(outcome: Status, run: seq<Step>, i: nat, more: seq<Step>)
    requires Outcome(outcome) && i < |run|
    requires run[i].Cancel? && ReplyTo(outcome, run, i).Done?
    requires !Dispatched(After(outcome, run[..i]))
    ensures !Dispatched(After(outcome, run + more)) && Dispatches(After(outcome, run + more)) == 0
  {
    var through, rest := run[..i + 1], run[i + 1..] + more;
    assert through[..i] == run[..i] && through + rest == run + more;
    Reachable(outcome, run[..i]);
    DispatchStep(After(outcome, run[..i]), run[i]);
    AnswersStayTrue(outcome, through, i);
    TerminalForever(outcome, through, rest);
    AtMostOneDispatch(outcome, run[..i]);
    AtMostOneDispatch(outcome, run + more);
  }

  /** The result of the first successful cleanup is kept for good. */
  lemma CleanedForever(outcome: Status, run: seq<Step>, more: seq<Step>)
    requires Outcome(outcome)
    requires After(outcome, run).record.Some? && After(outcome, run).record.value.cleanup.Some?
    ensures After(outcome, run + more).record.Some?
    ensures After(outcome, run + more).record.value.cleanup == After(outcome, run).record.value.cleanup
  {
    History(outcome, run, more);
  }

  // ----- observing

  /** The cursor of an observation: absent, an event's name read as its number, or anything else. */
  datatype CursorText = NoCursor | EventCursor(sequence: nat) | BadCursor

  /** Observing names the session but neither its owner nor its generation, and carries no fingerprint. */
  datatype Observation = Observation(wellFormed: bool, lineage: Lineage, cursor: CursorText)

  function ObserveError(s: State, o: Observation): Option<Error> {
    if !o.wellFormed then Some(Malformed)
    else if s.record == None || !SameAttempt(s.record.value, o.lineage) then Some(InvalidLineage)
    else if o.lineage.handle != s.record.value.lineage.handle then Some(StaleHandle)
    else if o.cursor.BadCursor? then Some(InvalidCursor)
    else None
  }

  function Start(c: CursorText): nat {
    if c.EventCursor? then c.sequence else 0
  }

  function Observed(s: State, o: Observation): Result<seq<Event>, Error> {
    if ObserveError(s, o).Some? then Err(ObserveError(s, o).value) else Ok(Observe(s.record.value, Start(o.cursor)))
  }

  /** One page: at most 64 events above the cursor. */
  function Observe(r: Record, cursor: nat): seq<Event> {
    var later := Above(r.events, cursor);
    if |later| <= 64 then later else later[..64]
  }

  function Above(events: seq<Event>, cursor: nat): seq<Event> {
    if events == [] then []
    else (if events[0].sequence > cursor then [events[0]] else []) + Above(events[1..], cursor)
  }

  /**
    In every reachable state events are numbered 1..n and an observation that names the session and a cursor answers
    exactly the rest of the log; every other observation is refused.
  */
  lemma ObserveExact(outcome: Status, run: seq<Step>, o: Observation)
    requires Outcome(outcome)
    ensures var s := After(outcome, run);
            Observed(s, o).Ok? <==>
              && o.wellFormed && s.record.Some? && !o.cursor.BadCursor?
              && o.lineage == s.record.value.lineage
    ensures var s, from := After(outcome, run), Start(o.cursor);
            Observed(s, o).Ok? ==>
              && (forall i | 0 <= i < |s.record.value.events| :: s.record.value.events[i].sequence == i + 1)
              && Observed(s, o).value == if from <= |s.record.value.events| then s.record.value.events[from..] else []
  {
    Reachable(outcome, run);
    var s := After(outcome, run);
    if s.record.Some? { AboveNumbered(s.record.value.events, 0, Start(o.cursor)); }
  }

  lemma {:induction false} AboveNumbered(events: seq<Event>, first: nat, cursor: nat)
    requires forall i | 0 <= i < |events| :: events[i].sequence == first + i + 1
    ensures Above(events, cursor) ==
            if cursor <= first then events else if cursor <= first + |events| then events[cursor - first..] else []
  {
    if events != [] {
      AboveNumbered(events[1..], first + 1, cursor);
    }
  }

  // ----- the runtime itself

  class FakeAgentRuntime {
    const outcome: Status
    var nextHandle: nat
    var record: Option<Record>
    var pending: map<string, Request>
    var releasing: set<string>
    ghost var run: seq<Step>

    ghost function View(): State
      reads this
    {
      State(outcome, nextHandle, record, pending, releasing)
    }

    ghost predicate Valid()
      reads this
    {
      Outcome(outcome) && View() == After(outcome, run)
    }

    constructor (outcome: Status)
      requires Outcome(outcome)
      ensures Valid() && run == [] && this.outcome == outcome
    {
      this.outcome := outcome;
      nextHandle, record, pending, releasing := 1, None, map[], {};
      run := [];
    }

    /** Close a step: the run grows by it, and the fields are the ones the step leads to. */
    ghost method Performed(step: Step)
      requires Outcome(outcome) && View() == Perform(After(outcome, run), step).0
      modifies this`run
      ensures run == old(run) + [step] && Valid()
    {
      AfterOne(outcome, run, step);
      run := run + [step];
    }

    method AddEvent(kind: Kind)
      requires record.Some?
      modifies this`record
      ensures record == Some(Emit(old(record).value, kind))
    {
      var r := record.value;
      record := Some(r.(events := r.events + [Event(|r.events| + 1, kind)]));
    }

    method Reserve(op: Operation, q: Request, a: Answer)
      requires record.Some?
      modifies this`record
      ensures record == Some(Remember(old(record).value, op, q, a))
    {
      var r := record.value;
      record := Some(r.(replay := r.replay[Key(op, q.idempotencyKey) := Stored(q.fingerprint, a)]));
    }

    /** The checks before an operation, then the stored answer if there is one; `Nothing` lets the operation go on. */
    method Admit(op: Operation, q: Request) returns (reply: Reply)
      ensures reply == if AdmissionError(View(), op, q).Some? then Refused(AdmissionError(View(), op, q).value)
                       else Replayed(record.value, op, q)
    {
      if !q.wellFormed { return Refused(Malformed); }
      var key := Key(op, q.idempotencyKey);
      if q.fingerprint != q.derived && (record == None || key !in record.value.replay) { return Refused(ForbiddenField); }
      if record == None { return Refused(InvalidLineage); }
      var mismatch := IdentityError(record.value, q, true);
      if mismatch.Some? { return Refused(mismatch.value); }
      if key !in record.value.replay { return Nothing; }
      var stored := record.value.replay[key];
      if stored.fingerprint != q.fingerprint { return Refused(IdempotencyConflict); }
      reply := Done(stored.answer);
    }

    method PrepareSession(q: Request, workspaceOk: bool) returns (reply: Reply)
      requires Valid()
      modifies this
      ensures Valid() && run == old(run) + [Prepare(q, workspaceOk)]
      ensures (View(), reply) == DoPrepare(old(View()), q, workspaceOk)
    {
      reply := Nothing;
      if !q.wellFormed {
        reply := Refused(Malformed);
      } else if q.fingerprint != q.derived && (record == None || Key(OpPrepare, q.idempotencyKey) !in record.value.replay) {
        reply := Refused(ForbiddenField);
      } else if record.Some? {
        if q.lineage.handle != None {
          reply := Refused(InvalidLineage);
        } else {
          var mismatch := IdentityError(record.value, q, false);
          if mismatch.Some? {
            reply := Refused(mismatch.value);
          } else {
            var again := Replayed(record.value, OpPrepare, q);
            reply := if again == Nothing then Refused(InvalidTransition) else again;
          }
        }
      } else if q.lineage.handle != None || !workspaceOk {
        reply := Refused(InvalidLineage);
      } else {
        record := Some(Record(q.lineage.(handle := Some(nextHandle)), q.owner, q.generation, Ready, 0, [], map[], None));
        AddEvent(PreparingEvent);
        AddEvent(ReadyEvent);
        reply := Done(Prepared(|record.value.events|, nextHandle));
        Reserve(OpPrepare, q, reply.answer);
        nextHandle := nextHandle + 1;
      }
      Performed(Prepare(q, workspaceOk));
    }

    method BeginExecute(q: Request) returns (reply: Reply)
      requires Valid()
      modifies this
      ensures Valid() && run == old(run) + [ExecuteReserve(q)]
      ensures (View(), reply) == DoReserve(old(View()), q)
    {
      reply := Admit(OpExecute, q);
      if reply == Nothing {
        if q.idempotencyKey in pending || q.idempotencyKey in releasing {
          reply := Refused(ReplayInProgress);
        } else if record.value.status != Ready {
          reply := Refused(InvalidTransition);
        } else {
          pending := pending[q.idempotencyKey := q];
          reply := Waiting;
        }
      }
      Performed(ExecuteReserve(q));
    }

    method CommitExecute(k: string) returns (reply: Reply)
      requires Valid() && k in pending
      modifies this
      ensures Valid() && run == old(run) + [ExecuteCommit(k)]
      ensures (View(), reply) == DoCommit(old(View()), k)
    {
      var q := pending[k];
      pending, releasing := pending - {k}, releasing + {k};
      if record == None {
        reply := Refused(InvalidLineage);
      } else if record.value.status != Ready {
        reply := Refused(InvalidTransition);
      } else {
        record := Some(record.value.(dispatchCount := record.value.dispatchCount + 1));
        AddEvent(RunningEvent);
        record := Some(record.value.(status := outcome));
        AddEvent(FinalEvent(outcome));
        reply := Done(Executed(|record.value.events|, record.value.status, record.value.dispatchCount));
        Reserve(OpExecute, q, reply.answer);
      }
      Performed(ExecuteCommit(k));
    }

    method ReleaseExecute(k: string)
      requires Valid()
      modifies this
      ensures Valid() && run == old(run) + [ExecuteRelease(k)]
      ensures View() == DoRelease(old(View()), k).0
    {
      releasing := releasing - {k};
      Performed(ExecuteRelease(k));
    }

    method CancelSession(q: Request, confirm: bool) returns (reply: Reply)
      requires Valid()
      modifies this
      ensures Valid() && run == old(run) + [Cancel(q, confirm)]
      ensures (View(), reply) == DoCancel(old(View()), q, confirm)
    {
      reply := Admit(OpCancel, q);
      if reply == Nothing {
        var status := record.value.status;
        if status == Succeeded {
          reply := Refused(InvalidTransition);
        } else if Terminal(status) {
          reply := Done(Cancellation(|record.value.events|, status, status == Cancelled));
          Reserve(OpCancel, q, reply.answer);
        } else {
          AddEvent(CancellingEvent);
          if confirm {
            record := Some(record.value.(status := Cancelled));
            AddEvent(FinalEvent(Cancelled));
            reply := Done(Cancellation(|record.value.events|, Cancelled, true));
          } else {
            reply := Done(Cancellation(|record.value.events|, Failed, false));
            record := Some(record.value.(status := Failed));
            AddEvent(FinalEvent(Failed));
          }
          Reserve(OpCancel, q, reply.answer);
        }
      }
      Performed(Cancel(q, confirm));
    }

    method HandOff(q: Request) returns (reply: Reply)
      requires Valid()
      modifies this
      ensures Valid() && run == old(run) + [Handoff(q)]
      ensures (View(), reply) == DoHandoff(old(View()), q)
    {
      reply := Admit(OpHandoff, q);
      if reply == Nothing {
        if pending.Keys + releasing != {} {
          reply := Refused(ReplayInProgress);
        } else {
          reply := Done(HandedOff(|record.value.events| + 1, record.value.status));
          Reserve(OpHandoff, q, reply.answer);
        }
      }
      Performed(Handoff(q));
    }

    method CleanUp(q: Request, succeed: bool) returns (reply: Reply)
      requires Valid()
      modifies this
      ensures Valid() && run == old(run) + [Cleanup(q, succeed)]
      ensures (View(), reply) == DoCleanup(old(View()), q, succeed)
    {
      reply := Admit(OpCleanup, q);
      if reply == Nothing {
        var r := record.value;
        if !Terminal(r.status) {
          reply := Refused(InvalidTransition);
        } else if r.cleanup.Some? {
          reply := Done(r.cleanup.value);
          Reserve(OpCleanup, q, reply.answer);
        } else {
          reply := Done(CleanedUp(|r.events|, r.status, succeed));
          if succeed { record := Some(r.(cleanup := Some(reply.answer))); }
          Reserve(OpCleanup, q, reply.answer);
        }
      }
      Performed(Cleanup(q, succeed));
    }

    method PageAbove(cursor: nat) returns (page: seq<Event>)
      requires record.Some?
      ensures page == Observe(record.value, cursor)
    {
      page := [];
      var i := 0;
      while i < |record.value.events|
        invariant 0 <= i <= |record.value.events|
        invariant page + Above(record.value.events[i..], cursor) == Above(record.value.events, cursor)
      {
        var e := record.value.events[i];
        assert record.value.events[i..][1..] == record.value.events[i + 1..];
        if e.sequence > cursor { page := page + [e]; }
        i := i + 1;
      }
      if |page| > 64 { page := page[..64]; }
    }

    method ObserveEvents(o: Observation) returns (r: Result<seq<Event>, Error>)
      ensures r == Observed(View(), o)
    {
      if !o.wellFormed { return Err(Malformed); }
      if record == None || !SameAttempt(record.value, o.lineage) { return Err(InvalidLineage); }
      if o.lineage.handle != record.value.lineage.handle { return Err(StaleHandle); }
      if o.cursor.BadCursor? { return Err(InvalidCursor); }
      var page := PageAbove(if o.cursor.EventCursor? then o.cursor.sequence else 0);
      r := Ok(page);
    }
  }
}
