/** Read-only diagnosis of an event log, and the recorder that projects lifecycle transitions onto it. */
module EventDiagnostics {
  import opened Wrappers
  import opened EventLog
  import Lifecycle

  const MAX_GAPS := 32
  const MAX_TASK_STATES := 256

  datatype Reason = Malformed | Inconsistent | Gap | NonInteger | Duplicate | NonMonotonic

  datatype Report = Report(
    eventCount: nat,
    transitionCount: nat,
    checkpointCount: nat,
    first: Option<Number>,
    last: Option<Number>,
    gaps: seq<nat>,
    states: map<string, Lifecycle.State>,
    reasons: seq<Reason>)

  datatype DiagnosisError = Unreadable(error: Error) | TooManyTasks

  const EMPTY := Report(0, 0, 0, None, None, [], map[], [])

  // ----- projecting transitions

  function AddReason(reasons: seq<Reason>, r: Reason): seq<Reason> {
    if r in reasons then reasons else reasons + [r]
  }

  datatype Projection = Projection(states: map<string, Lifecycle.State>, reasons: seq<Reason>, transitions: nat, checkpoints: nat)

  function ProjectOne(p: Projection, e: Event): Projection {
    match e.kind
    case Transition(from, to) =>
      if e.task.None? || e.task.value == [] || from.None? || to.None? then
        p.(transitions := p.transitions + 1, reasons := AddReason(p.reasons, Malformed))
      else
        var consistent := e.task.value in p.states ==> p.states[e.task.value] == from.value;
        p.(transitions := p.transitions + 1,
           reasons := if consistent then p.reasons else AddReason(p.reasons, Inconsistent),
           states := p.states[e.task.value := to.value])
    case Checkpoint => p.(checkpoints := p.checkpoints + 1)
    case Other => p
  }

  function Project(events: seq<Event>): Projection {
    if events == [] then Projection(map[], [], 0, 0) else ProjectOne(Project(events[..|events| - 1]), events[|events| - 1])
  }

  // ----- order and gaps

  function OrderReasons(events: seq<Event>, reasons: seq<Reason>): seq<Reason> {
    if |events| < 2 then reasons
    else
      var front := OrderReasons(events[..|events| - 1], reasons);
      var previous, current := Value(events[|events| - 2].sequence), Value(events[|events| - 1].sequence);
      if current == previous then AddReason(front, Duplicate)
      else if current < previous then AddReason(front, NonMonotonic)
      else front
  }

  predicate Ordered(events: seq<Event>) {
    forall i | 0 <= i < |events| - 1 :: Value(events[i].sequence) < Value(events[i + 1].sequence)
  }

  predicate AllWhole(events: seq<Event>) {
    forall e | e in events :: e.sequence.Whole?
  }

  function Numbers(events: seq<Event>): (r: seq<nat>)
    requires AllWhole(events)
    ensures |r| == |events| && forall i | 0 <= i < |r| :: r[i] == events[i].sequence.n
  {
    seq(|events|, i requires 0 <= i < |events| => events[i].sequence.n)
  }

  /** The integers from `lo` up to but not including `hi`. */
  function Range(lo: nat, hi: nat): (r: seq<nat>)
    ensures |r| == (if lo <= hi then hi - lo else 0) && forall i | 0 <= i < |r| :: r[i] == lo + i
  {
    if lo < hi then seq(hi - lo, i requires 0 <= i => lo + i) else []
  }

  /** Every integer skipped between neighbours, in order of appearance. */
  function Missing(ns: seq<nat>): seq<nat> {
    if |ns| < 2 then [] else Missing(ns[..|ns| - 1]) + Range(ns[|ns| - 2] + 1, ns[|ns| - 1])
  }

  function FirstOf(s: seq<nat>, n: nat): seq<nat> {
    if |s| <= n then s else s[..n]
  }

  function Smallest(events: seq<Event>): Number
    requires events != []
  {
    if |events| == 1 then events[0].sequence
    else
      var front := Smallest(events[..|events| - 1]);
      if Value(events[|events| - 1].sequence) < Value(front) then events[|events| - 1].sequence else front
  }

  function Largest(events: seq<Event>): Number
    requires events != []
  {
    if |events| == 1 then events[0].sequence
    else
      var front := Largest(events[..|events| - 1]);
      if Value(events[|events| - 1].sequence) > Value(front) then events[|events| - 1].sequence else front
  }

  /** The report on the events that were replayed. */
  function Describe(events: seq<Event>): Result<Report, DiagnosisError> {
    if events == [] then Ok(EMPTY)
    else
      var p := Project(events);
      var ordered := OrderReasons(events, p.reasons);
      var gaps := if AllWhole(events) && Ordered(events) then FirstOf(Missing(Numbers(events)), MAX_GAPS) else [];
      var reasons :=
        if !AllWhole(events) then AddReason(ordered, NonInteger)
        else if gaps != [] then AddReason(ordered, Gap) else ordered;
      if |p.states| > MAX_TASK_STATES then Err(TooManyTasks)
      else Ok(Report(|events|, p.transitions, p.checkpoints, Some(Smallest(events)), Some(Largest(events)), gaps, p.states, reasons))
  }

  function Diagnose(file: seq<Event>, limit: nat): Result<Report, DiagnosisError> {
    match Replay(file, limit)
    case Err(error) => Err(Unreadable(error))
    case Ok(events) => Describe(events)
  }

  // ----- the missing integers

  ghost predicate Ascending(ns: seq<nat>) {
    forall i, j | 0 <= i < j < |ns| :: ns[i] < ns[j]
  }

  /** For an ascending stream, `Missing` is exactly the integers inside its span that it skips, in ascending order. */
  lemma {:induction false} MissingExactly(ns: seq<nat>)
    requires Ascending(ns)
    ensures Ascending(Missing(ns))
    ensures forall v :: v in Missing(ns) <==> ns != [] && ns[0] < v < ns[|ns| - 1] && v !in ns
  {
    if |ns| >= 2 {
      var front, lo, hi := ns[..|ns| - 1], ns[|ns| - 2], ns[|ns| - 1];
      MissingExactly(front);
      var m, r := Missing(front), Range(lo + 1, hi);
      forall i, j | 0 <= i < j < |m + r|
        ensures (m + r)[i] < (m + r)[j]
      {
        if i < |m| <= j { assert m[i] in Missing(front); }
      }
      forall v: nat
        ensures v in m + r <==> ns[0] < v < hi && v !in ns
      {
        MissingMember(ns, v);
        assert v in r <==> lo < v < hi by { if lo < v < hi { assert r[v - lo - 1] == v; } }
      }
    }
  }

  lemma MissingMember(ns: seq<nat>, v: nat)
    requires Ascending(ns) && |ns| >= 2
    ensures var front := ns[..|ns| - 1];
            (ns[0] < v < ns[|ns| - 1] && v !in ns) <==>
              (ns[0] < v < ns[|ns| - 2] && v !in front) || ns[|ns| - 2] < v < ns[|ns| - 1]
  {
    var front := ns[..|ns| - 1];
    assert forall x :: x in ns <==> x in front || x == ns[|ns| - 1];
    assert ns[|ns| - 2] in front;
  }

  // ----- what is never reported for an appended log

  lemma {:induction false} OrderedHasNoOrderReason(events: seq<Event>, reasons: seq<Reason>)
    requires Ordered(events)
    ensures OrderReasons(events, reasons) == reasons
  {
    if |events| >= 2 { OrderedHasNoOrderReason(events[..|events| - 1], reasons); }
  }

  lemma {:induction false} ProjectReasons(events: seq<Event>)
    ensures forall r | r in Project(events).reasons :: r == Malformed || r == Inconsistent
  {
    if events != [] { ProjectReasons(events[..|events| - 1]); }
  }

  lemma {:induction false} SpanOfOrdered(events: seq<Event>)
    requires StrictlyIncreasing(events) && events != []
    ensures Smallest(events) == events[0].sequence && Largest(events) == events[|events| - 1].sequence
  {
    if |events| > 1 { SpanOfOrdered(events[..|events| - 1]); }
  }

  /** A report with no order anomaly, the true span, and the first 32 missing integers as gaps. */
  ghost predicate Orderly(events: seq<Event>, r: Report)
    requires events != [] && AllWhole(events)
  {
    && Duplicate !in r.reasons && NonMonotonic !in r.reasons && NonInteger !in r.reasons
    && r.gaps == FirstOf(Missing(Numbers(events)), MAX_GAPS) && Ascending(Numbers(events))
    && (Gap in r.reasons <==> r.gaps != [])
    && r.first == Some(events[0].sequence) && r.last == Some(events[|events| - 1].sequence)
    && r.eventCount == |events|
  }

  lemma DescribeIsOrderly(events: seq<Event>)
    requires events != [] && AllWhole(events) && StrictlyIncreasing(events)
    ensures Describe(events).Ok? ==> Orderly(events, Describe(events).value)
  {
    IncreasingIsOrdered(events);
    OrderedHasNoOrderReason(events, Project(events).reasons);
    ProjectReasons(events);
    SpanOfOrdered(events);
    NumbersAscend(events);
    DescribeOrdered(events);
  }

  lemma IncreasingIsOrdered(events: seq<Event>)
    requires StrictlyIncreasing(events)
    ensures Ordered(events)
  {
  }

  lemma DescribeOrdered(events: seq<Event>)
    requires events != [] && AllWhole(events) && Ordered(events)
    requires OrderReasons(events, Project(events).reasons) == Project(events).reasons
    ensures Describe(events).Ok? ==>
              var p, gaps := Project(events), FirstOf(Missing(Numbers(events)), MAX_GAPS);
              Describe(events).value == Report(|events|, p.transitions, p.checkpoints, Some(Smallest(events)), Some(Largest(events)), gaps,
                                               p.states, if gaps != [] then AddReason(p.reasons, Gap) else p.reasons)
  {
  }

  /** What a bounded replay of a readable log shows. */
  function Shown(file: seq<Event>, limit: nat): seq<Event> {
    if |file| <= limit then file else file[..limit]
  }

  lemma ShownIsReplayed(appended: seq<Event>, limit: nat)
    requires 1 <= limit <= MAX_QUERY && Bytes(After(appended)) <= MAX_LOG_BYTES
    ensures Replay(After(appended), limit) == Ok(Shown(After(appended), limit))
    ensures StrictlyIncreasing(Shown(After(appended), limit))
  {
    Reachable(appended);
    ReadableExactly(appended);
  }

  /**
    For every log built by appending events with integer sequences: no duplicate, non-monotonic or non-integer sequence
    is reported, the first and last sequence are those of the first and last event shown, and `gaps` is the first 32 of
    the missing integers in ascending order.
  */
  lemma AppendedLogDiagnosis(appended: seq<Event>, limit: nat)
    requires 1 <= limit <= MAX_QUERY && Bytes(After(appended)) <= MAX_LOG_BYTES
    requires After(appended) != [] && AllWhole(Shown(After(appended), limit))
    ensures var report := Diagnose(After(appended), limit);
            report.Ok? ==> Orderly(Shown(After(appended), limit), report.value)
  {
    ShownIsReplayed(appended, limit);
    DescribeIsOrderly(Shown(After(appended), limit));
  }

  lemma NumbersAscend(events: seq<Event>)
    requires AllWhole(events) && StrictlyIncreasing(events)
    ensures Ascending(Numbers(events))
  {
    var ns := Numbers(events);
    forall i, j | 0 <= i < j < |ns|
      ensures ns[i] < ns[j]
    {
      assert Value(events[i].sequence) < Value(events[j].sequence);
    }
  }

  /** Diagnosis of a readable log raises exactly when it shows transitions of more than 256 tasks. */
  lemma RaisesExactly(appended: seq<Event>, limit: nat)
    requires 1 <= limit <= MAX_QUERY && Bytes(After(appended)) <= MAX_LOG_BYTES
    ensures Diagnose(After(appended), limit).Err? <==>
              |Project(Shown(After(appended), limit)).states| > MAX_TASK_STATES
  {
    ShownIsReplayed(appended, limit);
  }

  // ----- recording lifecycles

  datatype Fleet = Fleet(lives: map<string, Lifecycle.Life>, file: seq<Event>, lost: bool)

  /** A lifecycle call whose transition is recorded at a sequence, or another event appended to the same log. */
  datatype Act =
    | Call(task: string, op: Lifecycle.Op, sequence: Number, canonicalBytes: nat)
    | Note(event: Event)

  /** The event the recorder builds for a transition. */
  function TransitionEvent(task: string, from: Lifecycle.State, to: Lifecycle.State, sequence: Number, canonicalBytes: nat): Event {
    Event(Derived(Some(task), sequence, "lifecycle.transition"), Some(task), Transition(Some(from), Some(to)), sequence, true, canonicalBytes)
  }

  /** `lost` remembers that a transition happened without a new line in the log. */
  function Perform(f: Fleet, a: Act): Fleet {
    match a
    case Note(e) => if e.kind.Transition? then f else f.(file := Append(f.file, e).0)
    case Call(task, op, sequence, canonicalBytes) =>
      if task !in f.lives then f
      else
        var before, after := f.lives[task], Lifecycle.Next(f.lives[task], op);
        if after.history == before.history then f.(lives := f.lives[task := after])
        else
          var file := Append(f.file, TransitionEvent(task, before.state, after.state, sequence, canonicalBytes)).0;
          Fleet(f.lives[task := after], file, f.lost || file == f.file)
  }

  function Acts(start: map<string, Lifecycle.Life>, acts: seq<Act>): Fleet {
    if acts == [] then Fleet(start, [], false) else Perform(Acts(start, acts[..|acts| - 1]), acts[|acts| - 1])
  }

  ghost predicate FreshLives(lives: map<string, Lifecycle.Life>) {
    forall t | t in lives :: t != [] && lives[t].maxAttempts >= 1 && lives[t] == Lifecycle.New(lives[t].maxAttempts)
  }

  /** One task and its projected state: absent until it moves, then its current state. */
  ghost predicate TaskAgrees(lives: map<string, Lifecycle.Life>, states: map<string, Lifecycle.State>, t: string) {
    && (t in states ==> t in lives && lives[t].history != [] && states[t] == lives[t].state)
    && (t in lives ==>
          && t != [] && Lifecycle.Bounded(lives[t])
          && (t !in states ==> lives[t].history == []))
  }

  /** The projection of the log is the state of every task that has moved, and nothing else. */
  ghost predicate Agrees(lives: map<string, Lifecycle.Life>, p: Projection) {
    p.reasons == [] && forall t :: TaskAgrees(lives, p.states, t)
  }

  lemma AppendOrSame(file: seq<Event>, e: Event)
    ensures Append(file, e).0 == file || Append(file, e).0 == file + [e]
  {
  }

  lemma ProjectAppend(file: seq<Event>, e: Event)
    ensures Project(file + [e]) == ProjectOne(Project(file), e)
  {
    assert (file + [e])[..|file|] == file;
  }

  /** Recording the transition a call made keeps the projection in agreement. */
  lemma MoveAgrees(lives: map<string, Lifecycle.Life>, p: Projection, task: string, after: Lifecycle.Life, e: Event)
    requires Agrees(lives, p) && task in lives && Lifecycle.Bounded(after) && after.history != []
    requires e.task == Some(task) && e.kind == Transition(Some(lives[task].state), Some(after.state))
    ensures Agrees(lives[task := after], ProjectOne(p, e))
  {
    assert TaskAgrees(lives, p.states, task);
    var next, states := lives[task := after], ProjectOne(p, e).states;
    forall t: string
      ensures TaskAgrees(next, states, t)
    {
      assert TaskAgrees(lives, p.states, t);
    }
  }

  /** A call that moves nothing: the task's attempts or heartbeat may change, not its state. */
  lemma StayAgrees(lives: map<string, Lifecycle.Life>, p: Projection, task: string, after: Lifecycle.Life)
    requires Agrees(lives, p) && task in lives && Lifecycle.Bounded(after)
    requires after.history == lives[task].history && after.state == lives[task].state
    ensures Agrees(lives[task := after], p)
  {
    var next := lives[task := after];
    forall t: string
      ensures TaskAgrees(next, p.states, t)
    {
      assert TaskAgrees(lives, p.states, t) && TaskAgrees(lives, p.states, task);
    }
  }

  lemma NoteAgrees(f: Fleet, e: Event)
    requires Agrees(f.lives, Project(f.file)) && !e.kind.Transition?
    ensures Agrees(f.lives, Project(Append(f.file, e).0))
  {
    AppendOrSame(f.file, e);
    ProjectAppend(f.file, e);
  }

  /** What a call does to a task it moves. */
  lemma CallMoves(before: Lifecycle.Life, op: Lifecycle.Op)
    requires Lifecycle.Bounded(before)
    ensures var after := Lifecycle.Next(before, op);
            && Lifecycle.Bounded(after)
            && (after.history == before.history ==> after.state == before.state)
            && (after.history != before.history ==> after.history != [])
  {
    Lifecycle.StepKeeps(before, op);
  }

  lemma RecordedAgrees(lives: map<string, Lifecycle.Life>, file: seq<Event>, task: string, after: Lifecycle.Life, e: Event)
    requires Agrees(lives, Project(file)) && task in lives && Lifecycle.Bounded(after) && after.history != []
    requires e.task == Some(task) && e.kind == Transition(Some(lives[task].state), Some(after.state))
    requires Append(file, e).0 != file
    ensures Agrees(lives[task := after], Project(Append(file, e).0))
  {
    AppendOrSame(file, e);
    ProjectAppend(file, e);
    MoveAgrees(lives, Project(file), task, after, e);
  }

  lemma PerformAgrees(f: Fleet, a: Act)
    requires Agrees(f.lives, Project(f.file)) && !Perform(f, a).lost
    ensures Agrees(Perform(f, a).lives, Project(Perform(f, a).file))
  {
    match a
    case Note(e) =>
      if !e.kind.Transition? { NoteAgrees(f, e); }
    case Call(task, op, sequence, canonicalBytes) =>
      if task in f.lives {
        var before, after := f.lives[task], Lifecycle.Next(f.lives[task], op);
        assert TaskAgrees(f.lives, Project(f.file).states, task);
        CallMoves(before, op);
        if after.history == before.history {
          StayAgrees(f.lives, Project(f.file), task, after);
        } else {
          RecordedAgrees(f.lives, f.file, task, after, TransitionEvent(task, before.state, after.state, sequence, canonicalBytes));
        }
      }
  }

  lemma LostStays(f: Fleet, a: Act)
    ensures f.lost ==> Perform(f, a).lost
  {
  }

  lemma {:induction false} ActsAgree(start: map<string, Lifecycle.Life>, acts: seq<Act>)
    requires FreshLives(start) && !Acts(start, acts).lost
    ensures Agrees(Acts(start, acts).lives, Project(Acts(start, acts).file))
  {
    if acts != [] {
      LostStays(Acts(start, acts[..|acts| - 1]), acts[|acts| - 1]);
      ActsAgree(start, acts[..|acts| - 1]);
      PerformAgrees(Acts(start, acts[..|acts| - 1]), acts[|acts| - 1]);
    }
  }

  /** The current state of every task that has moved. */
  function Moved(lives: map<string, Lifecycle.Life>): map<string, Lifecycle.State> {
    map t | t in lives && lives[t].history != [] :: lives[t].state
  }

  lemma AgreesIsMoved(lives: map<string, Lifecycle.Life>, p: Projection)
    requires Agrees(lives, p)
    ensures p.states == Moved(lives)
  {
    var moved := Moved(lives);
    forall t: string
      ensures (t in p.states <==> t in moved) && (t in p.states ==> p.states[t] == moved[t])
    {
      assert TaskAgrees(lives, p.states, t);
    }
  }

  lemma DescribeAgrees(events: seq<Event>)
    requires Project(events).reasons == []
    ensures if |Project(events).states| > MAX_TASK_STATES then Describe(events) == Err(TooManyTasks)
            else Describe(events).Ok? && Describe(events).value.states == Project(events).states
                 && Malformed !in Describe(events).value.reasons && Inconsistent !in Describe(events).value.reasons
  {
    OrderReasonsKeep(events, []);
  }

  /**
    When every transition of a set of fresh tasks made it into the log, and the whole log is readable and within the
    replay limit, the diagnosis reports exactly the current state of every task that has moved, with no malformed or
    inconsistent transition; it raises exactly when more than 256 tasks have moved.
  */
  lemma ProjectionAgrees(start: map<string, Lifecycle.Life>, acts: seq<Act>, limit: nat)
    requires FreshLives(start) && !Acts(start, acts).lost
    requires 1 <= limit <= MAX_QUERY && Records(Acts(start, acts).file).Ok? && |Acts(start, acts).file| <= limit
    ensures var moved, report := Moved(Acts(start, acts).lives), Diagnose(Acts(start, acts).file, limit);
            if |moved| > MAX_TASK_STATES then report == Err(TooManyTasks)
            else report.Ok? && report.value.states == moved
                 && Malformed !in report.value.reasons && Inconsistent !in report.value.reasons
  {
    ActsAgree(start, acts);
    var f := Acts(start, acts);
    AgreesIsMoved(f.lives, Project(f.file));
    DescribeAgrees(f.file);
    assert Replay(f.file, limit) == Ok(f.file);
  }

  lemma {:induction false} OrderReasonsKeep(events: seq<Event>, reasons: seq<Reason>)
    ensures forall r | r in OrderReasons(events, reasons) :: r in reasons || r == Duplicate || r == NonMonotonic
  {
    if |events| >= 2 { OrderReasonsKeep(events[..|events| - 1], reasons); }
  }

  // ----- a fleet that is too large to diagnose

  /** The bytes of a transition's event in the example. */
  const SMALL := 1024

  ghost predicate Roster(tasks: seq<string>) {
    && |tasks| <= MAX_QUERY && (forall t | t in tasks :: Identifier(t))
    && forall i, j | 0 <= i < j < |tasks| :: tasks[i] != tasks[j]
  }

  function NewLives(tasks: seq<string>, max: nat): map<string, Lifecycle.Life> {
    map t | t in tasks :: Lifecycle.New(max)
  }

  /** The first `k` tasks are ready, the others new. */
  function ReadyLives(tasks: seq<string>, max: nat, k: nat): map<string, Lifecycle.Life>
    requires k <= |tasks|
  {
    map t | t in tasks :: if t in tasks[..k] then Lifecycle.Next(Lifecycle.New(max), Lifecycle.MarkReady) else Lifecycle.New(max)
  }

  function ReadyEvent(task: string, i: nat): Event {
    TransitionEvent(task, Lifecycle.Pending, Lifecycle.Ready, Whole(i), SMALL)
  }

  function ReadyEvents(tasks: seq<string>, k: nat): (r: seq<Event>)
    requires k <= |tasks|
    ensures |r| == k && forall i | 0 <= i < k :: r[i] == ReadyEvent(tasks[i], i)
  {
    if k == 0 then [] else ReadyEvents(tasks, k - 1) + [ReadyEvent(tasks[k - 1], k - 1)]
  }

  /** Every task in turn becomes ready, and the transition is recorded. */
  function ReadyAll(tasks: seq<string>, k: nat): seq<Act>
    requires k <= |tasks|
  {
    if k == 0 then [] else ReadyAll(tasks, k - 1) + [Call(tasks[k - 1], Lifecycle.MarkReady, Whole(k - 1), SMALL)]
  }

  lemma {:induction false} ReadyBytes(tasks: seq<string>, k: nat)
    requires k <= |tasks| && Roster(tasks)
    ensures Bytes(ReadyEvents(tasks, k)) == k * (SMALL + CHECKSUM_BYTES) <= MAX_LOG_BYTES
  {
    assert SMALL + CHECKSUM_BYTES == 1103;
    if k > 0 {
      ReadyBytes(tasks, k - 1);
      BytesAppend(ReadyEvents(tasks, k - 1), ReadyEvent(tasks[k - 1], k - 1));
    }
  }

  /** The log of the first events is in order and readable, and takes the next event. */
  lemma {:induction false} ReadyAppends(tasks: seq<string>, k: nat)
    requires k < |tasks| && Roster(tasks)
    ensures Append(ReadyEvents(tasks, k), ReadyEvent(tasks[k], k)) ==
              (ReadyEvents(tasks, k + 1), Ok(ReadyEvent(tasks[k], k)))
  {
    var file, e := ReadyEvents(tasks, k), ReadyEvent(tasks[k], k);
    ReadyBytes(tasks, k);
    NoClash(file, e);
    ReadyRecords(tasks, k);
    assert tasks[k] in tasks;
    forall x | x in file
      ensures x.id != e.id && Value(x.sequence) < Value(e.sequence)
    {
      var i :| 0 <= i < k && file[i] == x;
      assert Value(Whole(i)) < Value(Whole(k));
    }
  }

  lemma ReadyRecords(tasks: seq<string>, k: nat)
    requires k <= |tasks| && Roster(tasks)
    ensures Records(ReadyEvents(tasks, k)) == Ok(ReadyEvents(tasks, k))
  {
    ReadyBytes(tasks, k);
    assert LinesFit(ReadyEvents(tasks, k));
  }

  lemma ActsAppend(start: map<string, Lifecycle.Life>, acts: seq<Act>, a: Act)
    ensures Acts(start, acts + [a]) == Perform(Acts(start, acts), a)
  {
    assert (acts + [a])[..|acts|] == acts;
  }

  lemma {:induction false} ReadyAllRecorded(tasks: seq<string>, max: nat, k: nat)
    requires k <= |tasks| && Roster(tasks)
    ensures Acts(NewLives(tasks, max), ReadyAll(tasks, k)) == Fleet(ReadyLives(tasks, max, k), ReadyEvents(tasks, k), false)
  {
    var start := NewLives(tasks, max);
    if k == 0 {
      assert ReadyLives(tasks, max, 0) == start;
    } else {
      var task := tasks[k - 1];
      ReadyAllRecorded(tasks, max, k - 1);
      ActsAppend(start, ReadyAll(tasks, k - 1), Call(task, Lifecycle.MarkReady, Whole(k - 1), SMALL));
      ReadyAppends(tasks, k - 1);
      NextReady(tasks, max, k);
    }
  }

  lemma NextReady(tasks: seq<string>, max: nat, k: nat)
    requires 0 < k <= |tasks| && Roster(tasks)
    ensures var lives, task := ReadyLives(tasks, max, k - 1), tasks[k - 1];
            && task in lives && lives[task] == Lifecycle.New(max)
            && ReadyLives(tasks, max, k) == lives[task := Lifecycle.Next(lives[task], Lifecycle.MarkReady)]
  {
    assert tasks[k - 1] in tasks && tasks[k - 1] !in tasks[..k - 1];
    assert forall t :: t in tasks[..k] <==> t in tasks[..k - 1] || t == tasks[k - 1];
  }

  lemma {:induction false} RosterSize(tasks: seq<string>)
    requires forall i, j | 0 <= i < j < |tasks| :: tasks[i] != tasks[j]
    ensures |set t | t in tasks| == |tasks|
  {
    if tasks != [] {
      var front, last := tasks[..|tasks| - 1], tasks[|tasks| - 1];
      RosterSize(front);
      assert last !in front;
      assert (set t | t in tasks) == (set t | t in front) + {last};
    }
  }

  lemma AllMoved(tasks: seq<string>, max: nat)
    requires Roster(tasks)
    ensures |Moved(ReadyLives(tasks, max, |tasks|))| == |tasks|
  {
    var moved := Moved(ReadyLives(tasks, max, |tasks|));
    assert tasks[..|tasks|] == tasks;
    assert moved.Keys == set t | t in tasks;
    RosterSize(tasks);
  }

  lemma NewLivesAreFresh(tasks: seq<string>, max: nat)
    requires Roster(tasks) && max >= 1
    ensures FreshLives(NewLives(tasks, max))
  {
  }

  /**
    Any fleet of more than 256 tasks whose first transitions were all recorded is in a readable log that diagnosis
    refuses; with 256 or fewer it is diagnosed.
  */
  lemma LargeFleetRaises(tasks: seq<string>, max: nat)
    requires Roster(tasks) && tasks != [] && max >= 1
    ensures var file := Acts(NewLives(tasks, max), ReadyAll(tasks, |tasks|)).file;
            && |file| == |tasks| && Records(file).Ok?
            && (Diagnose(file, |tasks|).Err? <==> |tasks| > MAX_TASK_STATES)
  {
    var start, acts := NewLives(tasks, max), ReadyAll(tasks, |tasks|);
    ReadyAllRecorded(tasks, max, |tasks|);
    ReadyRecords(tasks, |tasks|);
    NewLivesAreFresh(tasks, max);
    ProjectionAgrees(start, acts, |tasks|);
    AllMoved(tasks, max);
  }

  /** Names of 257 tasks: one to 128 letters a, one to 128 characters starting with b, and one more. */
  function ManyNames(): seq<string> {
    seq(MAX_TASK_STATES + 1, i requires 0 <= i <= MAX_TASK_STATES => ManyName(i))
  }

  function ManyName(i: nat): (r: string) {
    if i < MAX_ID then Unary(i + 1) else if i < 2 * MAX_ID then "b" + Unary(i - MAX_ID) else "c"
  }

  lemma ManyNameShape(i: nat)
    requires i <= MAX_TASK_STATES
    ensures |ManyName(i)| == if i < MAX_ID then i + 1 else if i < 2 * MAX_ID then i - MAX_ID + 1 else 1
    ensures ManyName(i) != [] && ManyName(i)[0] == if i < MAX_ID then 'a' else if i < 2 * MAX_ID then 'b' else 'c'
  {
    if i < MAX_ID { UnaryStarts(i + 1); }
  }

  lemma {:induction false} UnaryStarts(n: nat)
    requires n > 0
    ensures Unary(n)[0] == 'a'
  {
    if n > 1 { UnaryStarts(n - 1); }
  }

  lemma ManyNamesAreARoster()
    ensures Roster(ManyNames()) && |ManyNames()| == 257
  {
    var names := ManyNames();
    forall i, j | 0 <= i < j < |names|
      ensures names[i] != names[j] && Identifier(names[i]) && Identifier(names[j])
    {
      ManyNameShape(i);
      ManyNameShape(j);
    }
  }

  /** One such log: 257 tasks made ready, recorded, readable, and refused. */
  lemma TooManyTasksExample()
    ensures var file := Acts(NewLives(ManyNames(), 1), ReadyAll(ManyNames(), 257)).file;
            |file| == 257 && Records(file).Ok? && Diagnose(file, 257).Err?
  {
    ManyNamesAreARoster();
    LargeFleetRaises(ManyNames(), 1);
  }

  // ----- the loops of the diagnosis

  method ProjectEvents(events: seq<Event>) returns (p: Projection)
    ensures p == Project(events)
  {
    var states: map<string, Lifecycle.State> := map[];
    var reasons: seq<Reason> := [];
    var transitions, checkpoints := 0, 0;
    var i := 0;
    while i < |events|
      invariant 0 <= i <= |events|
      invariant Projection(states, reasons, transitions, checkpoints) == Project(events[..i])
    {
      var e := events[i];
      assert events[..i + 1][..i] == events[..i];
      match e.kind {
        case Transition(from, to) =>
          transitions := transitions + 1;
          if e.task.None? || e.task.value == [] || from.None? || to.None? {
            if Malformed !in reasons { reasons := reasons + [Malformed]; }
          } else {
            if e.task.value in states && states[e.task.value] != from.value {
              if Inconsistent !in reasons { reasons := reasons + [Inconsistent]; }
            }
            states := states[e.task.value := to.value];
          }
        case Checkpoint => checkpoints := checkpoints + 1;
        case Other =>
      }
      i := i + 1;
    }
    assert events[..i] == events;
    p := Projection(states, reasons, transitions, checkpoints);
  }

  method CheckOrder(events: seq<Event>, before: seq<Reason>) returns (reasons: seq<Reason>, anomaly: bool)
    ensures reasons == OrderReasons(events, before)
    ensures anomaly <==> !Ordered(events)
  {
    reasons, anomaly := before, false;
    if |events| < 2 { return; }
    var i := 1;
    while i < |events|
      invariant 1 <= i <= |events| && reasons == OrderReasons(events[..i], before)
      invariant anomaly <==> !Ordered(events[..i])
    {
      var previous, current := Value(events[i - 1].sequence), Value(events[i].sequence);
      OrderStep(events, i, before);
      if current == previous {
        reasons, anomaly := AddReason(reasons, Duplicate), true;
      } else if current < previous {
        reasons, anomaly := AddReason(reasons, NonMonotonic), true;
      }
      i := i + 1;
    }
    assert events[..i] == events;
  }

  lemma OrderStep(events: seq<Event>, i: nat, before: seq<Reason>)
    requires 1 <= i < |events|
    ensures var previous, current := Value(events[i - 1].sequence), Value(events[i].sequence);
            && (Ordered(events[..i + 1]) <==> Ordered(events[..i]) && previous < current)
            && OrderReasons(events[..i + 1], before) ==
                 if current == previous then AddReason(OrderReasons(events[..i], before), Duplicate)
                 else if current < previous then AddReason(OrderReasons(events[..i], before), NonMonotonic)
                 else OrderReasons(events[..i], before)
  {
    var longer, shorter := events[..i + 1], events[..i];
    assert longer[..i] == shorter;
    assert forall k | 0 <= k < i :: longer[k] == shorter[k];
  }

  /** Add the integers skipped between two neighbours, stopping as soon as there are 32. */
  method AddGaps(before: seq<nat>, lower: nat, upper: nat, ghost found: seq<nat>) returns (missing: seq<nat>)
    requires before == FirstOf(found, MAX_GAPS)
    ensures missing == FirstOf(found + Range(lower + 1, upper), MAX_GAPS)
  {
    missing := before;
    assert found + Range(lower + 1, lower + 1) == found;
    if upper > lower + 1 {
      var value := lower + 1;
      while value < upper && |missing| < MAX_GAPS
        invariant lower + 1 <= value <= upper
        invariant missing == FirstOf(found + Range(lower + 1, value), MAX_GAPS)
      {
        RangeNext(found, lower + 1, value);
        missing := missing + [value];
        value := value + 1;
      }
      FirstOfLonger(found, Range(lower + 1, value), Range(lower + 1, upper), MAX_GAPS);
    } else {
      assert Range(lower + 1, upper) == [];
    }
  }

  lemma RangeNext(found: seq<nat>, lo: nat, value: nat)
    requires lo <= value
    ensures found + Range(lo, value + 1) == (found + Range(lo, value)) + [value]
  {
    assert Range(lo, value + 1) == Range(lo, value) + [value];
  }

  /** The first 32 skipped integers; the scan stops as soon as there are that many. */
  method CollectGaps(ns: seq<nat>) returns (missing: seq<nat>)
    ensures missing == FirstOf(Missing(ns), MAX_GAPS)
  {
    missing := [];
    if |ns| < 2 { return; }
    var i := 1;
    while i < |ns| && |missing| < MAX_GAPS
      invariant 1 <= i <= |ns| && missing == FirstOf(Missing(ns[..i]), MAX_GAPS)
    {
      MissingStep(ns, i);
      missing := AddGaps(missing, ns[i - 1], ns[i], Missing(ns[..i]));
      i := i + 1;
    }
    MissingEnough(ns, i);
  }

  lemma MissingStep(ns: seq<nat>, i: nat)
    requires 1 <= i < |ns|
    ensures Missing(ns[..i + 1]) == Missing(ns[..i]) + Range(ns[i - 1] + 1, ns[i])
  {
    assert ns[..i + 1][..i] == ns[..i];
  }

  /** The scan may stop at the end, or once there are enough. */
  lemma MissingEnough(ns: seq<nat>, i: nat)
    requires 1 <= i <= |ns| && (i == |ns| || |FirstOf(Missing(ns[..i]), MAX_GAPS)| >= MAX_GAPS)
    ensures FirstOf(Missing(ns[..i]), MAX_GAPS) == FirstOf(Missing(ns), MAX_GAPS)
  {
    MissingGrows(ns, i);
    if i == |ns| { assert ns[..i] == ns; }
  }

  lemma FirstOfLonger(a: seq<nat>, b: seq<nat>, c: seq<nat>, n: nat)
    requires b <= c && (b == c || |a + b| >= n)
    ensures FirstOf(a + c, n) == FirstOf(a + b, n)
  {
  }

  lemma {:induction false} MissingGrows(ns: seq<nat>, k: nat)
    requires k <= |ns|
    ensures Missing(ns[..k]) <= Missing(ns)
    decreases |ns|
  {
    if k == |ns| {
      assert ns[..k] == ns;
    } else if |ns| >= 2 {
      assert ns[..|ns| - 1][..k] == ns[..k];
      MissingGrows(ns[..|ns| - 1], k);
    }
  }

  method DiagnoseEventLog(log: Log, limit: nat) returns (r: Result<Report, DiagnosisError>)
    requires log.Valid()
    ensures r == Diagnose(log.file, limit)
  {
    if !(1 <= limit <= MAX_QUERY) { return Err(Unreadable(BadLimit)); }
    var records := log.ReadRecords();
    if records.Err? { return Err(Unreadable(records.error)); }
    var events := if |records.value| <= limit then records.value else records.value[..limit];
    if events == [] { return Ok(EMPTY); }
    var p := ProjectEvents(events);
    var reasons, anomaly := CheckOrder(events, p.reasons);
    var gaps: seq<nat> := [];
    if !AllWhole(events) {
      reasons := AddReason(reasons, NonInteger);
    } else if !anomaly {
      gaps := CollectGaps(Numbers(events));
      if gaps != [] { reasons := AddReason(reasons, Gap); }
    }
    if |p.states| > MAX_TASK_STATES { return Err(TooManyTasks); }
    r := Ok(Report(|events|, p.transitions, p.checkpoints, Some(Smallest(events)), Some(Largest(events)), gaps, p.states, reasons));
  }
}
