/**
  The bounded parallel executor: one loop that submits tasks in id order, keeps at most `maxWorkers` of them in flight,
  and collects their results in whatever order they complete.

  The environment of a run is a schedule of turns.  Each turn of the loop sees whether cancellation was requested,
  whether the deadline has passed, which futures are done and with what outcome, and whether any refuses to stop.
*/
module ParallelExecutor {
  import opened Wrappers
  import opened Order

  datatype Task = Task(id: string, copies: bool)

  datatype Outcome = Returned(value: string, copies: bool) | Raised(isTimeout: bool)

  datatype Completion = Completion(id: string, outcome: Outcome, early: bool)

  datatype Turn = Turn(cancel: bool, expired: bool, lateAfterWait: bool, stubborn: bool, done: seq<Completion>)

  datatype Status = Completed | Failed | TimedOut | Cancelled

  datatype TaskResult = TaskResult(id: string, status: Status, value: Option<string>)

  datatype Config = Config(maxWorkers: nat, hasDeadline: bool)

  datatype Loop = Loop(
    submitted: seq<string>,
    queue: seq<string>,
    flight: seq<string>,
    results: map<string, TaskResult>,
    poisoned: bool)

  datatype Error = ExecutorClosed | PoolPoisoned | InvalidId

  datatype Reply = Refused(error: Error) | Output(results: seq<TaskResult>) | Waiting

  // ----- the tasks of a run

  /** The ids in order of first appearance. */
  function Ids(tasks: seq<Task>): seq<string> {
    if tasks == [] then []
    else
      var front := Ids(tasks[..|tasks| - 1]);
      if tasks[|tasks| - 1].id in front then front else front + [tasks[|tasks| - 1].id]
  }

  /** The task kept for an id: the first one given. */
  function Entry(tasks: seq<Task>, id: string): Option<Task> {
    if tasks == [] then None
    else
      var front := Entry(tasks[..|tasks| - 1], id);
      if front.Some? then front
      else if tasks[|tasks| - 1].id == id then Some(tasks[|tasks| - 1]) else None
  }

  function Ordered(tasks: seq<Task>): seq<string> {
    Sort(Ids(tasks), (id: string) => id)
  }

  predicate Copied(tasks: seq<Task>, id: string) {
    Entry(tasks, id).Some? && Entry(tasks, id).value.copies
  }

  /** The ids whose task could be copied, in order: these are the ones that get submitted. */
  function Runnable(tasks: seq<Task>, ids: seq<string>): seq<string> {
    if ids == [] then []
    else
      var front := Runnable(tasks, ids[..|ids| - 1]);
      if Copied(tasks, ids[|ids| - 1]) then front + [ids[|ids| - 1]] else front
  }

  function CopyFailures(tasks: seq<Task>, ids: seq<string>): map<string, TaskResult> {
    if ids == [] then map[]
    else
      var id := ids[|ids| - 1];
      var front := CopyFailures(tasks, ids[..|ids| - 1]);
      if Copied(tasks, id) then front else front[id := TaskResult(id, Failed, None)]
  }

  lemma {:induction false} IdsAreTaskIds(tasks: seq<Task>)
    ensures Distinct(Ids(tasks))
    ensures forall id :: id in Ids(tasks) <==> Entry(tasks, id).Some?
    ensures forall id | Entry(tasks, id).Some? :: Entry(tasks, id).value in tasks && Entry(tasks, id).value.id == id
  {
    if tasks != [] { IdsAreTaskIds(tasks[..|tasks| - 1]); }
  }

  lemma {:induction false} EveryTaskHasId(tasks: seq<Task>, i: nat)
    requires i < |tasks|
    ensures tasks[i].id in Ids(tasks)
  {
    if i < |tasks| - 1 { EveryTaskHasId(tasks[..|tasks| - 1], i); }
  }

  lemma DistinctByMultiset(xs: seq<string>, ys: seq<string>)
    requires Distinct(xs) && multiset(xs) == multiset(ys)
    ensures Distinct(ys)
  {
    CountsOfDistinct(xs);
    forall i, j | 0 <= i < j < |ys|
      ensures ys[i] != ys[j]
    {
      if ys[i] == ys[j] { RepeatedCounts(ys, i, j); }
    }
  }

  lemma RepeatedCounts(ys: seq<string>, i: nat, j: nat)
    requires i < j < |ys| && ys[i] == ys[j]
    ensures multiset(ys)[ys[i]] >= 2
  {
    assert ys == ys[..i] + [ys[i]] + ys[i + 1..j] + [ys[j]] + ys[j + 1..];
  }

  lemma {:induction false} CountsOfDistinct(xs: seq<string>)
    requires Distinct(xs)
    ensures forall x :: multiset(xs)[x] <= 1
  {
    if xs != [] {
      CountsOfDistinct(xs[1..]);
      assert xs == [xs[0]] + xs[1..];
      assert xs[0] !in xs[1..];
    }
  }

  /** The run's ids are the task ids, each once, in increasing order. */
  lemma OrderedIds(tasks: seq<Task>)
    ensures Increasing(Ordered(tasks))
    ensures forall id :: id in Ordered(tasks) <==> Entry(tasks, id).Some?
    ensures forall i | 0 <= i < |tasks| :: tasks[i].id in Ordered(tasks)
  {
    IdsAreTaskIds(tasks);
    SortSorts(Ids(tasks), (id: string) => id);
    DistinctByMultiset(Ids(tasks), Ordered(tasks));
    forall id: string
      ensures id in Ordered(tasks) <==> Entry(tasks, id).Some?
    {
      assert id in Ordered(tasks) <==> id in multiset(Ordered(tasks));
    }
    forall i | 0 <= i < |tasks|
      ensures tasks[i].id in Ordered(tasks)
    {
      EveryTaskHasId(tasks, i);
    }
  }

  lemma {:induction false} RunnableSplits(tasks: seq<Task>, ids: seq<string>)
    requires Distinct(ids)
    ensures Distinct(Runnable(tasks, ids))
    ensures forall id :: id in Runnable(tasks, ids) <==> id in ids && Copied(tasks, id)
    ensures forall id :: id in CopyFailures(tasks, ids) <==> id in ids && !Copied(tasks, id)
    ensures forall id | id in CopyFailures(tasks, ids) :: CopyFailures(tasks, ids)[id] == TaskResult(id, Failed, None)
  {
    if ids != [] { RunnableSplits(tasks, ids[..|ids| - 1]); }
  }

  // ----- the loop

  function Submit(l: Loop): Loop {
    if l.queue == [] then l
    else l.(submitted := l.submitted + [l.queue[0]], queue := l.queue[1..], flight := l.flight + [l.queue[0]])
  }

  function SubmitMany(l: Loop, n: nat): Loop {
    if n == 0 then l else Submit(SubmitMany(l, n - 1))
  }

  /** The loop before its first turn; a run that starts cancelled submits nothing. */
  function Start(tasks: seq<Task>, c: Config, cancelled: bool): Loop {
    var ids := Ordered(tasks);
    var l := Loop([], Runnable(tasks, ids), [], CopyFailures(tasks, ids), false);
    if cancelled then l else SubmitMany(l, Min(c.maxWorkers, |l.queue|))
  }

  function Min(a: nat, b: nat): nat {
    if a < b then a else b
  }

  function ResultOf(c: Completion): TaskResult {
    match c.outcome
    case Returned(v, copies) => if copies then TaskResult(c.id, Completed, Some(v)) else TaskResult(c.id, Failed, None)
    case Raised(isTimeout) => TaskResult(c.id, if isTimeout then TimedOut else Failed, None)
  }

  function Without(xs: seq<string>, x: string): seq<string> {
    if xs == [] then [] else if xs[0] == x then xs[1..] else [xs[0]] + Without(xs[1..], x)
  }

  function Finish(l: Loop, c: Config, d: Completion): Loop {
    if d.id !in l.flight then l
    else
      var popped := l.(flight := Without(l.flight, d.id), results := l.results[d.id := ResultOf(d)]);
      if !c.hasDeadline || d.early then Submit(popped) else popped
  }

  function FinishAll(l: Loop, c: Config, done: seq<Completion>): Loop {
    if done == [] then l else Finish(FinishAll(l, c, done[..|done| - 1]), c, done[|done| - 1])
  }

  /** Everything in flight ends with the given status, and nothing is submitted any more. */
  function Interrupt(l: Loop, status: Status, poison: bool): Loop {
    l.(flight := [],
       results := l.results + (map id | id in l.flight :: TaskResult(id, status, None)),
       poisoned := l.poisoned || poison)
  }

  function TakeTurn(l: Loop, c: Config, t: Turn): Loop {
    if l.flight == [] then l
    else if t.cancel then Interrupt(l, Cancelled, t.stubborn)
    else if c.hasDeadline && t.expired then Interrupt(l, TimedOut, true)
    else if t.done != [] then FinishAll(l, c, t.done)
    else if c.hasDeadline && t.lateAfterWait then Interrupt(l, TimedOut, true)
    else l
  }

  function TakeTurns(l: Loop, c: Config, ts: seq<Turn>): Loop {
    if ts == [] then l else TakeTurn(TakeTurns(l, c, ts[..|ts| - 1]), c, ts[|ts| - 1])
  }

  function ResultFor(l: Loop, id: string): TaskResult {
    if id in l.results then l.results[id] else TaskResult(id, Cancelled, None)
  }

  function OutputFor(l: Loop, ids: seq<string>): (r: seq<TaskResult>)
    ensures |r| == |ids| && forall i | 0 <= i < |ids| :: r[i] == ResultFor(l, ids[i])
  {
    seq(|ids|, i requires 0 <= i < |ids| => ResultFor(l, ids[i]))
  }

  // ----- conservation

  /** The ids split into finished, in flight and not yet submitted; submission follows the id order. */
  ghost predicate Conserved(l: Loop, c: Config, runnable: seq<string>, failed: map<string, TaskResult>) {
    && l.submitted + l.queue == runnable
    && Distinct(runnable)
    && Distinct(l.flight)
    && |l.flight| <= c.maxWorkers
    && (forall id | id in l.flight :: id in l.submitted && id !in l.results)
    && (forall id | id in l.submitted :: id in l.flight || id in l.results)
    && (forall id | id in l.results :: id in failed || id in l.submitted)
    && (forall id | id in failed :: id in l.results && l.results[id] == failed[id] && id !in runnable)
    && (forall id | id in l.results :: l.results[id].id == id)
  }

  lemma SubmitKeeps(l: Loop, c: Config, runnable: seq<string>, failed: map<string, TaskResult>)
    requires Conserved(l, c, runnable, failed) && |l.flight| < c.maxWorkers
    ensures Conserved(Submit(l), c, runnable, failed)
  {
    if l.queue != [] {
      var id, next := l.queue[0], Submit(l);
      assert l.submitted + l.queue == next.submitted + next.queue;
      assert runnable[|l.submitted|] == id;
      forall x | x in l.submitted
        ensures x != id
      {
        var i :| 0 <= i < |l.submitted| && l.submitted[i] == x;
        assert runnable[i] == x;
      }
      assert id !in l.submitted && id !in l.flight;
    }
  }

  lemma {:induction false} SubmitManyKeeps(l: Loop, c: Config, runnable: seq<string>, failed: map<string, TaskResult>, n: nat)
    requires Conserved(l, c, runnable, failed) && l.flight == [] && n <= c.maxWorkers
    ensures Conserved(SubmitMany(l, n), c, runnable, failed) && |SubmitMany(l, n).flight| <= n
    ensures |SubmitMany(l, n).queue| == if n <= |l.queue| then |l.queue| - n else 0
    ensures n <= |l.queue| ==> |SubmitMany(l, n).flight| == n
  {
    if n > 0 {
      SubmitManyKeeps(l, c, runnable, failed, n - 1);
      SubmitKeeps(SubmitMany(l, n - 1), c, runnable, failed);
    }
  }

  lemma {:induction false} WithoutRemoves(xs: seq<string>, x: string)
    requires Distinct(xs) && x in xs
    ensures Distinct(Without(xs, x)) && |Without(xs, x)| == |xs| - 1
    ensures forall y :: y in Without(xs, x) <==> y in xs && y != x
  {
    if xs[0] == x {
      assert x !in xs[1..];
    } else {
      WithoutRemoves(xs[1..], x);
      assert xs[0] !in xs[1..];
    }
  }

  lemma FinishKeeps(l: Loop, c: Config, d: Completion, runnable: seq<string>, failed: map<string, TaskResult>)
    requires Conserved(l, c, runnable, failed)
    ensures Conserved(Finish(l, c, d), c, runnable, failed)
    ensures !c.hasDeadline && Full(l, c) ==> Full(Finish(l, c, d), c)
  {
    if d.id in l.flight {
      WithoutRemoves(l.flight, d.id);
      var popped := l.(flight := Without(l.flight, d.id), results := l.results[d.id := ResultOf(d)]);
      assert Conserved(popped, c, runnable, failed);
      SubmitKeeps(popped, c, runnable, failed);
    }
  }

  /** No worker idles while a task is waiting. */
  predicate Full(l: Loop, c: Config) {
    l.queue == [] || |l.flight| == c.maxWorkers
  }

  lemma {:induction false} FinishAllKeeps(l: Loop, c: Config, done: seq<Completion>, runnable: seq<string>, failed: map<string, TaskResult>)
    requires Conserved(l, c, runnable, failed)
    ensures Conserved(FinishAll(l, c, done), c, runnable, failed)
    ensures !c.hasDeadline && Full(l, c) ==> Full(FinishAll(l, c, done), c)
  {
    if done != [] {
      FinishAllKeeps(l, c, done[..|done| - 1], runnable, failed);
      FinishKeeps(FinishAll(l, c, done[..|done| - 1]), c, done[|done| - 1], runnable, failed);
    }
  }

  lemma TurnKeeps(l: Loop, c: Config, t: Turn, runnable: seq<string>, failed: map<string, TaskResult>)
    requires Conserved(l, c, runnable, failed)
    ensures Conserved(TakeTurn(l, c, t), c, runnable, failed)
    ensures !c.hasDeadline && !t.cancel && Full(l, c) ==> Full(TakeTurn(l, c, t), c)
  {
    FinishAllKeeps(l, c, t.done, runnable, failed);
  }

  lemma StartConserved(tasks: seq<Task>, c: Config, cancelled: bool)
    ensures var ids := Ordered(tasks);
            Conserved(Start(tasks, c, cancelled), c, Runnable(tasks, ids), CopyFailures(tasks, ids))
    ensures !cancelled ==> Full(Start(tasks, c, cancelled), c)
  {
    var ids := Ordered(tasks);
    OrderedIds(tasks);
    RunnableSplits(tasks, ids);
    var l := Loop([], Runnable(tasks, ids), [], CopyFailures(tasks, ids), false);
    assert l.submitted + l.queue == Runnable(tasks, ids);
    SubmitManyKeeps(l, c, Runnable(tasks, ids), CopyFailures(tasks, ids), Min(c.maxWorkers, |l.queue|));
  }

  /**
    At every turn, whatever has completed, timed out or been cancelled: every id is in exactly one of finished,
    in flight and waiting, at most `maxWorkers` are in flight, and no id is submitted twice.
  */
  lemma {:induction false} Conservation(tasks: seq<Task>, c: Config, cancelled: bool, ts: seq<Turn>)
    ensures var ids := Ordered(tasks);
            Conserved(TakeTurns(Start(tasks, c, cancelled), c, ts), c, Runnable(tasks, ids), CopyFailures(tasks, ids))
    decreases |ts|
  {
    if ts == [] {
      StartConserved(tasks, c, cancelled);
    } else {
      Conservation(tasks, c, cancelled, ts[..|ts| - 1]);
      var ids := Ordered(tasks);
      TurnKeeps(TakeTurns(Start(tasks, c, cancelled), c, ts[..|ts| - 1]), c, ts[|ts| - 1],
                Runnable(tasks, ids), CopyFailures(tasks, ids));
    }
  }

  /** The pieces of an id list, counted: no id is lost and none is in two places. */
  lemma ExactlyOnePlace(tasks: seq<Task>, c: Config, cancelled: bool, ts: seq<Turn>, id: string)
    requires id in Ordered(tasks)
    ensures var l := TakeTurns(Start(tasks, c, cancelled), c, ts);
            && (id in l.results || id in l.flight || id in l.queue)
            && !(id in l.results && id in l.flight) && !(id in l.results && id in l.queue)
            && !(id in l.flight && id in l.queue)
            && multiset(l.submitted)[id] <= 1
            && |l.flight| <= c.maxWorkers
  {
    var ids := Ordered(tasks);
    var runnable, failed := Runnable(tasks, ids), CopyFailures(tasks, ids);
    var l := TakeTurns(Start(tasks, c, cancelled), c, ts);
    Conservation(tasks, c, cancelled, ts);
    OrderedIds(tasks);
    RunnableSplits(tasks, ids);
    SubmittedOnce(l.submitted, l.queue);
    assert id in runnable <==> id in l.submitted || id in l.queue;
    if id in l.queue {
      assert id in runnable && id !in failed;
    }
  }

  lemma SubmittedOnce(submitted: seq<string>, queue: seq<string>)
    requires Distinct(submitted + queue)
    ensures forall id :: multiset(submitted)[id] <= 1 && !(id in submitted && id in queue)
  {
    var all := submitted + queue;
    CountsOfDistinct(all);
    forall id: string
      ensures multiset(submitted)[id] <= 1 && !(id in submitted && id in queue)
    {
      assert multiset(all) == multiset(submitted) + multiset(queue);
      assert multiset(all)[id] == multiset(submitted)[id] + multiset(queue)[id];
    }
  }

  // ----- what a finished run returns

  /** Exactly one result per id, in increasing order; an id that was never submitted is reported as cancelled. */
  lemma OneResultPerId(tasks: seq<Task>, c: Config, cancelled: bool, ts: seq<Turn>)
    requires TakeTurns(Start(tasks, c, cancelled), c, ts).flight == []
    ensures var ids := Ordered(tasks);
            var l := TakeTurns(Start(tasks, c, cancelled), c, ts);
            var out := OutputFor(l, ids);
            && |out| == |ids| && Increasing(ids)
            && (forall id :: id in ids <==> Entry(tasks, id).Some?)
            && (forall i | 0 <= i < |ids| :: out[i].id == ids[i])
            && (forall i | 0 <= i < |ids| && !Copied(tasks, ids[i]) :: out[i].status == Failed)
            && (forall i | 0 <= i < |ids| && ids[i] in l.queue :: out[i] == TaskResult(ids[i], Cancelled, None))
            && (forall i | 0 <= i < |ids| && ids[i] in l.submitted :: ids[i] in l.results && out[i] == l.results[ids[i]])
  {
    Conservation(tasks, c, cancelled, ts);
    OrderedIds(tasks);
    var ids := Ordered(tasks);
    RunnableSplits(tasks, ids);
    forall id | id in ids
      ensures id in TakeTurns(Start(tasks, c, cancelled), c, ts).queue ==>
                id !in TakeTurns(Start(tasks, c, cancelled), c, ts).results
    {
      ExactlyOnePlace(tasks, c, cancelled, ts, id);
    }
  }

  function AllDone(ts: seq<Turn>): seq<Completion> {
    if ts == [] then [] else AllDone(ts[..|ts| - 1]) + ts[|ts| - 1].done
  }

  /** Where a result may come from. */
  ghost predicate Earned(r: TaskResult, id: string, c: Config, failed: map<string, TaskResult>, ts: seq<Turn>) {
    || (id in failed && r == failed[id])
    || (exists d :: d in AllDone(ts) && d.id == id && r == ResultOf(d))
    || (r == TaskResult(id, Cancelled, None) && exists t :: t in ts && t.cancel)
    || (r == TaskResult(id, TimedOut, None) && c.hasDeadline)
  }

  lemma {:induction false} FinishAllKeepsResults(l: Loop, c: Config, done: seq<Completion>, runnable: seq<string>, failed: map<string, TaskResult>)
    requires Conserved(l, c, runnable, failed)
    ensures forall id | id in l.results :: id in FinishAll(l, c, done).results && FinishAll(l, c, done).results[id] == l.results[id]
  {
    if done != [] {
      FinishAllKeepsResults(l, c, done[..|done| - 1], runnable, failed);
      FinishAllKeeps(l, c, done[..|done| - 1], runnable, failed);
    }
  }

  /** A recorded result is final: no later turn replaces it. */
  lemma {:induction false} ResultsAreFinal(tasks: seq<Task>, c: Config, cancelled: bool, ts: seq<Turn>, more: seq<Turn>, id: string)
    requires id in TakeTurns(Start(tasks, c, cancelled), c, ts).results
    ensures id in TakeTurns(Start(tasks, c, cancelled), c, ts + more).results
    ensures TakeTurns(Start(tasks, c, cancelled), c, ts + more).results[id] ==
            TakeTurns(Start(tasks, c, cancelled), c, ts).results[id]
    decreases |more|
  {
    if more == [] {
      assert ts + more == ts;
    } else {
      var shorter, t := ts + more[..|more| - 1], more[|more| - 1];
      assert (ts + more)[..|ts + more| - 1] == shorter;
      ResultsAreFinal(tasks, c, cancelled, ts, more[..|more| - 1], id);
      Conservation(tasks, c, cancelled, shorter);
      var ids := Ordered(tasks);
      FinishAllKeepsResults(TakeTurns(Start(tasks, c, cancelled), c, shorter), c, t.done, Runnable(tasks, ids), CopyFailures(tasks, ids));
    }
  }

  /** Every recorded result is a copy failure, a completion that was seen, or the interruption that happened. */
  lemma {:induction false} ResultsAreEarned(tasks: seq<Task>, c: Config, cancelled: bool, ts: seq<Turn>, id: string)
    requires id in TakeTurns(Start(tasks, c, cancelled), c, ts).results
    ensures Earned(TakeTurns(Start(tasks, c, cancelled), c, ts).results[id], id, c, CopyFailures(tasks, Ordered(tasks)), ts)
    decreases |ts|
  {
    var failed := CopyFailures(tasks, Ordered(tasks));
    if ts == [] {
      SubmitManyResults(Loop([], Runnable(tasks, Ordered(tasks)), [], failed, false),
                        Min(c.maxWorkers, |Runnable(tasks, Ordered(tasks))|));
    } else {
      var past, t := ts[..|ts| - 1], ts[|ts| - 1];
      var l := TakeTurns(Start(tasks, c, cancelled), c, past);
      assert past + [t] == ts;
      if id in l.results && TakeTurn(l, c, t).results[id] == l.results[id] {
        ResultsAreEarned(tasks, c, cancelled, past, id);
        EarnedLater(l.results[id], id, c, failed, past, t);
      } else {
        EarnedNow(l, c, past, t, id, failed);
      }
    }
  }

  /** A result that this turn produced comes from one of its completions or from its interruption. */
  lemma EarnedNow(l: Loop, c: Config, past: seq<Turn>, t: Turn, id: string, failed: map<string, TaskResult>)
    requires id in TakeTurn(l, c, t).results && !(id in l.results && TakeTurn(l, c, t).results[id] == l.results[id])
    ensures Earned(TakeTurn(l, c, t).results[id], id, c, failed, past + [t])
  {
    assert (past + [t])[..|past|] == past;
    assert AllDone(past + [t]) == AllDone(past) + t.done;
    assert t in past + [t];
    FinishAllNew(l, c, t.done, id);
  }

  lemma {:induction false} FinishAllNew(l: Loop, c: Config, done: seq<Completion>, id: string)
    ensures id in FinishAll(l, c, done).results ==>
              || (id in l.results && FinishAll(l, c, done).results[id] == l.results[id])
              || (exists d :: d in done && d.id == id && FinishAll(l, c, done).results[id] == ResultOf(d))
  {
    if done != [] {
      FinishAllNew(l, c, done[..|done| - 1], id);
    }
  }

  lemma EarnedLater(r: TaskResult, id: string, c: Config, failed: map<string, TaskResult>, past: seq<Turn>, t: Turn)
    requires Earned(r, id, c, failed, past)
    ensures Earned(r, id, c, failed, past + [t])
  {
    assert (past + [t])[..|past|] == past;
    assert AllDone(past + [t]) == AllDone(past) + t.done;
    forall u | u in past
      ensures u in past + [t]
    {
    }
  }

  lemma {:induction false} SubmitManyResults(l: Loop, n: nat)
    ensures SubmitMany(l, n).results == l.results && SubmitMany(l, n).poisoned == l.poisoned
  {
    if n > 0 { SubmitManyResults(l, n - 1); }
  }

  lemma {:induction false} StaysFull(tasks: seq<Task>, c: Config, ts: seq<Turn>)
    requires !c.hasDeadline && forall t | t in ts :: !t.cancel
    ensures Full(TakeTurns(Start(tasks, c, false), c, ts), c)
    decreases |ts|
  {
    if ts == [] {
      StartConserved(tasks, c, false);
    } else {
      var past := ts[..|ts| - 1];
      StaysFull(tasks, c, past);
      Conservation(tasks, c, false, past);
      TurnKeeps(TakeTurns(Start(tasks, c, false), c, past), c, ts[|ts| - 1],
                Runnable(tasks, Ordered(tasks)), CopyFailures(tasks, Ordered(tasks)));
    }
  }

  /** Without cancellation or a deadline, a finished run has run every task that could be copied, to its own outcome. */
  lemma EverythingRuns(tasks: seq<Task>, c: Config, ts: seq<Turn>, id: string)
    requires !c.hasDeadline && c.maxWorkers >= 1 && forall t | t in ts :: !t.cancel
    requires TakeTurns(Start(tasks, c, false), c, ts).flight == []
    requires id in Ordered(tasks) && Copied(tasks, id)
    ensures exists d :: d in AllDone(ts) && d.id == id
                        && ResultFor(TakeTurns(Start(tasks, c, false), c, ts), id) == ResultOf(d)
  {
    StaysFull(tasks, c, ts);
    ExactlyOnePlace(tasks, c, false, ts, id);
    ResultsAreEarned(tasks, c, false, ts, id);
    OrderedIds(tasks);
    RunnableSplits(tasks, Ordered(tasks));
  }

  // ----- the loop ends

  function Remaining(l: Loop): nat {
    |l.flight| + |l.queue|
  }

  /** A turn that lets the loop get on: an interruption, or a completion of something in flight. */
  predicate Productive(l: Loop, c: Config, t: Turn) {
    t.cancel || (c.hasDeadline && t.expired) || exists d | d in t.done :: d.id in l.flight
  }

  function ProductiveTurns(l: Loop, c: Config, ts: seq<Turn>): nat {
    if ts == [] then 0
    else
      var past := ts[..|ts| - 1];
      ProductiveTurns(l, c, past) + if Productive(TakeTurns(l, c, past), c, ts[|ts| - 1]) then 1 else 0
  }

  lemma {:induction false} FinishAllProgress(l: Loop, c: Config, done: seq<Completion>, runnable: seq<string>, failed: map<string, TaskResult>)
    requires Conserved(l, c, runnable, failed)
    ensures Remaining(FinishAll(l, c, done)) <= Remaining(l)
    ensures if exists d | d in done :: d.id in l.flight then Remaining(FinishAll(l, c, done)) < Remaining(l)
            else FinishAll(l, c, done) == l
  {
    if done != [] {
      var front, d := done[..|done| - 1], done[|done| - 1];
      FinishAllProgress(l, c, front, runnable, failed);
      FinishAllKeeps(l, c, front, runnable, failed);
      var m := FinishAll(l, c, front);
      if d.id in m.flight { WithoutRemoves(m.flight, d.id); }
      assert forall e :: e in done <==> e in front || e == d;
    }
  }

  /** As many productive turns as there are tasks to run always bring the loop to its end. */
  lemma {:induction false} LoopEnds(tasks: seq<Task>, c: Config, cancelled: bool, ts: seq<Turn>)
    ensures var l, start := TakeTurns(Start(tasks, c, cancelled), c, ts), Start(tasks, c, cancelled);
            l.flight == [] || ProductiveTurns(start, c, ts) + Remaining(l) <= |Runnable(tasks, Ordered(tasks))|
    decreases |ts|
  {
    var ids, start := Ordered(tasks), Start(tasks, c, cancelled);
    var runnable, failed := Runnable(tasks, ids), CopyFailures(tasks, ids);
    if ts == [] {
      SubmitManyRemaining(Loop([], runnable, [], failed, false), Min(c.maxWorkers, |runnable|));
    } else {
      var past, t := ts[..|ts| - 1], ts[|ts| - 1];
      LoopEnds(tasks, c, cancelled, past);
      Conservation(tasks, c, cancelled, past);
      FinishAllProgress(TakeTurns(start, c, past), c, t.done, runnable, failed);
    }
  }

  lemma {:induction false} SubmitManyRemaining(l: Loop, n: nat)
    ensures Remaining(SubmitMany(l, n)) == Remaining(l)
  {
    if n > 0 { SubmitManyRemaining(l, n - 1); }
  }

  // ----- the executor itself

  predicate AllNamed(tasks: seq<Task>) {
    forall t | t in tasks :: t.id != []
  }

  class BoundedParallelExecutor {
    const maxWorkers: nat
    var poisoned: bool
    var closed: bool

    constructor (maxWorkers: nat)
      requires maxWorkers >= 1
      ensures this.maxWorkers == maxWorkers && !poisoned && !closed
    {
      this.maxWorkers := maxWorkers;
      poisoned, closed := false, false;
    }

    method CollectIds(tasks: seq<Task>) returns (ids: seq<string>, named: bool)
      ensures named <==> AllNamed(tasks)
      ensures named ==> ids == Ids(tasks)
    {
      ids := [];
      var i := 0;
      while i < |tasks|
        invariant 0 <= i <= |tasks| && ids == Ids(tasks[..i])
        invariant forall t | t in tasks[..i] :: t.id != []
      {
        if tasks[i].id == [] { return ids, false; }
        assert tasks[..i + 1][..i] == tasks[..i];
        if tasks[i].id !in ids { ids := ids + [tasks[i].id]; }
        i := i + 1;
      }
      assert tasks[..|tasks|] == tasks;
      named := true;
    }

    method CopyTasks(tasks: seq<Task>, ids: seq<string>) returns (runnable: seq<string>, results: map<string, TaskResult>)
      ensures runnable == Runnable(tasks, ids) && results == CopyFailures(tasks, ids)
    {
      runnable, results := [], map[];
      var i := 0;
      while i < |ids|
        invariant 0 <= i <= |ids|
        invariant runnable == Runnable(tasks, ids[..i]) && results == CopyFailures(tasks, ids[..i])
      {
        assert ids[..i + 1][..i] == ids[..i];
        if Copied(tasks, ids[i]) {
          runnable := runnable + [ids[i]];
        } else {
          results := results[ids[i] := TaskResult(ids[i], Failed, None)];
        }
        i := i + 1;
      }
      assert ids[..|ids|] == ids;
    }

    /** Fill the pool before the first turn. */
    method FirstSubmissions(l: Loop) returns (r: Loop)
      ensures r == SubmitMany(l, Min(maxWorkers, |l.queue|))
    {
      r := l;
      var n := 0;
      while n < Min(maxWorkers, |l.queue|)
        invariant 0 <= n <= Min(maxWorkers, |l.queue|) && r == SubmitMany(l, n)
      {
        r := Submit(r);
        n := n + 1;
      }
    }

    /** Collect what is done, in the order the futures are handed over. */
    method Collect(l: Loop, c: Config, done: seq<Completion>) returns (r: Loop)
      ensures r == FinishAll(l, c, done)
    {
      r := l;
      var i := 0;
      while i < |done|
        invariant 0 <= i <= |done| && r == FinishAll(l, c, done[..i])
      {
        var d := done[i];
        assert done[..i + 1][..i] == done[..i];
        if d.id in r.flight {
          r := r.(flight := Without(r.flight, d.id), results := r.results[d.id := ResultOf(d)]);
          if !c.hasDeadline || d.early { r := Submit(r); }
        }
        i := i + 1;
      }
      assert done[..|done|] == done;
    }

    /** The executor's run against a schedule of turns; `Waiting` means the schedule ended before the loop did. */
    method Run(tasks: seq<Task>, hasDeadline: bool, cancelled: bool, schedule: seq<Turn>) returns (reply: Reply)
      modifies this`poisoned
      ensures var c := Config(maxWorkers, hasDeadline);
              var l := TakeTurns(Start(tasks, c, cancelled), c, schedule);
              if closed then reply == Refused(ExecutorClosed) && poisoned == old(poisoned)
              else if old(poisoned) && !cancelled then reply == Refused(PoolPoisoned) && poisoned
              else if !AllNamed(tasks) then reply == Refused(InvalidId) && poisoned == old(poisoned)
              else
                && poisoned == (old(poisoned) || l.poisoned)
                && reply == if l.flight == [] then Output(OutputFor(l, Ordered(tasks))) else Waiting
    {
      if closed { return Refused(ExecutorClosed); }
      if poisoned && !cancelled { return Refused(PoolPoisoned); }
      var ids, named := CollectIds(tasks);
      if !named { return Refused(InvalidId); }
      var ordered := Sort(ids, (id: string) => id);
      var c := Config(maxWorkers, hasDeadline);
      var runnable, results := CopyTasks(tasks, ordered);
      var l := Loop([], runnable, [], results, false);
      if !cancelled { l := FirstSubmissions(l); }
      var i := 0;
      while l.flight != [] && i < |schedule|
        invariant 0 <= i <= |schedule|
        invariant l == TakeTurns(Start(tasks, c, cancelled), c, schedule[..i])
        invariant poisoned == old(poisoned)
        decreases |schedule| - i
      {
        var t := schedule[i];
        assert schedule[..i + 1][..i] == schedule[..i];
        if t.cancel {
          l := Interrupt(l, Cancelled, t.stubborn);
        } else if hasDeadline && t.expired {
          l := Interrupt(l, TimedOut, true);
        } else if t.done != [] {
          l := Collect(l, c, t.done);
        } else if hasDeadline && t.lateAfterWait {
          l := Interrupt(l, TimedOut, true);
        }
        i := i + 1;
      }
      if l.flight == [] { OverStaysOver(Start(tasks, c, cancelled), c, schedule, i); }
      assert schedule[..|schedule|] == schedule;
      poisoned := poisoned || l.poisoned;
      reply := if l.flight == [] then Output(OutputFor(l, ordered)) else Waiting;
    }

    method Close()
      modifies this`closed
      ensures closed
    {
      closed := true;
    }
  }

  /** Once nothing is in flight the loop is over: further turns change nothing. */
  lemma {:induction false} OverStaysOver(l: Loop, c: Config, ts: seq<Turn>, i: nat)
    requires i <= |ts| && TakeTurns(l, c, ts[..i]).flight == []
    ensures TakeTurns(l, c, ts) == TakeTurns(l, c, ts[..i])
    decreases |ts|
  {
    if i == |ts| {
      assert ts[..i] == ts;
    } else {
      assert ts[..|ts| - 1][..i] == ts[..i];
      OverStaysOver(l, c, ts[..|ts| - 1], i);
    }
  }
}
