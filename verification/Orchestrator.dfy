/**
  The wave scheduler: it picks ready tasks wave by wave, dispatches each with bounded retries, and blocks the tasks
  that can no longer run.

  The dispatcher is an arbitrary function of task and attempt; the timeout and the error patterns of the retry policy
  are folded into its outcome.  Gates that have passed, inputs and blocking conditions are fixed for a run.
*/
module Orchestrator {
  import opened Wrappers
  import opened Lifecycle
  import Order

  datatype Agent = Agent(id: string, role: string, capabilities: set<string>)

  datatype Spec = Spec(
    role: string,
    owner: Option<string>,
    capabilities: set<string>,
    dependsOn: set<string>,
    wave: nat,
    startable: bool,
    doneInPlan: bool,
    inputsAvailable: bool,
    blockedCondition: bool)

  /** `ids` lists the tasks in id order and `waves` the waves in the order they run. */
  datatype Plan = Plan(
    ids: seq<string>,
    tasks: map<string, Spec>,
    agents: seq<Agent>,
    waves: seq<nat>,
    waveGates: map<nat, set<string>>,
    gatesPassed: set<string>)

  datatype Outcome = Completes | Fails(timedOut: bool, matches: bool)

  datatype World = World(dispatch: (string, nat) -> Outcome, clock: (string, nat) -> int)

  type Lives = map<string, Life>

  /** One call of the dispatcher, with the tasks that were done when it was made. */
  datatype Dispatch = Dispatch(id: string, attempt: nat, done: set<string>)

  predicate Waits(s: Lifecycle.State) {
    s == Pending || s == Ready
  }

  predicate Open(s: Lifecycle.State) {
    s == Pending || s == Ready || s == Running
  }

  predicate Bad(s: Lifecycle.State) {
    s == Failed || s == Blocked
  }

  ghost predicate DependenciesKnown(p: Plan) {
    forall id | id in p.tasks :: p.tasks[id].dependsOn <= p.tasks.Keys
  }

  /** What validation and sorting guarantee: known tasks only, each id once and in order, waves ascending, no task both startable and done. */
  ghost predicate ValidPlan(p: Plan) {
    && Order.Increasing(p.ids)
    && (forall id :: id in p.ids <==> id in p.tasks)
    && DependenciesKnown(p)
    && (forall id | id in p.tasks :: !(p.tasks[id].startable && p.tasks[id].doneInPlan))
    && (forall id | id in p.tasks :: p.tasks[id].wave in p.waves)
    && (forall i, j | 0 <= i < j < |p.waves| :: p.waves[i] < p.waves[j])
  }

  ghost predicate ValidLives(p: Plan, lives: Lives) {
    lives.Keys == p.tasks.Keys && forall id | id in lives :: Lifecycle.Valid(lives[id])
  }

  // ----- agents and readiness

  predicate Candidate(t: Spec, a: Agent) {
    a.role == t.role && t.capabilities <= a.capabilities
  }

  function FindAgent(agents: seq<Agent>, id: string): Option<Agent> {
    if agents == [] then None else if agents[0].id == id then Some(agents[0]) else FindAgent(agents[1..], id)
  }

  predicate Compatible(p: Plan, t: Spec) {
    if p.agents == [] then true
    else if t.owner.Some? then
      var owner := FindAgent(p.agents, t.owner.value);
      owner.Some? && Candidate(t, owner.value)
    else exists a | a in p.agents :: Candidate(t, a)
  }

  function Done(lives: Lives): set<string> {
    set id | id in lives && (lives[id].state == Completed || lives[id].state == Skipped)
  }

  /** Done by lifecycle or already done in the plan. */
  predicate Over(p: Plan, done: set<string>, id: string) {
    id in done || (id in p.tasks && p.tasks[id].doneInPlan)
  }

  function GatesOf(p: Plan, wave: nat): set<string> {
    if wave in p.waveGates then p.waveGates[wave] else {}
  }

  predicate EarlierWavesOver(p: Plan, done: set<string>, wave: nat) {
    forall other | other in p.tasks && p.tasks[other].wave < wave :: Over(p, done, other)
  }

  predicate DependenciesOver(p: Plan, done: set<string>, t: Spec) {
    forall d | d in t.dependsOn :: Over(p, done, d)
  }

  /** What the plan says about readiness, given the tasks that are done. */
  predicate PlanReady(p: Plan, done: set<string>, id: string)
    requires id in p.tasks
  {
    var t := p.tasks[id];
    && t.startable
    && DependenciesOver(p, done, t)
    && EarlierWavesOver(p, done, t.wave)
    && GatesOf(p, t.wave) <= p.gatesPassed
  }

  /** What the orchestrator itself asks of a task it is told is ready. */
  predicate Pickable(p: Plan, lives: Lives, seen: set<string>, id: string)
    requires id in p.tasks && id in lives
  {
    Waits(lives[id].state) && id !in seen && Compatible(p, p.tasks[id])
  }

  predicate IsReady(p: Plan, lives: Lives, seen: set<string>, id: string)
    requires id in p.tasks && id in lives
  {
    PlanReady(p, Done(lives), id) && Pickable(p, lives, seen, id)
  }

  // ----- one task: bounded attempts

  /** Running a ready task to its end: the life it ends in and the attempts that were dispatched. */
  function Attempts(w: World, id: string, l: Life): (Life, seq<nat>)
    requires Lifecycle.Valid(l) && l.state == Ready
    decreases l.maxAttempts - l.attempt
  {
    var running := DoStart(l, true, Some(w.clock(id, l.attempt))).value;
    match w.dispatch(id, running.attempt)
    case Completes => (DoComplete(running, true).value, [running.attempt])
    case Fails(timedOut, matches) =>
      var failed := DoFail(running, !timedOut).value;
      if timedOut || !matches || failed.attempt >= failed.maxAttempts then (failed, [running.attempt])
      else
        var rest := Attempts(w, id, DoRetry(failed).value);
        (rest.0, [running.attempt] + rest.1)
  }

  function First(l: Life): nat {
    if l.attempt == 0 then 1 else l.attempt
  }

  /** The attempts first, first + 1, ..., last. */
  ghost predicate Consecutive(attempts: seq<nat>, first: nat, last: nat) {
    |attempts| == last - first + 1 && forall i | 0 <= i < |attempts| :: attempts[i] == first + i
  }

  /** Everything the history gained since `before` is a path from its state to the state now. */
  ghost predicate Grown(before: Life, after: Life) {
    && before.maxAttempts == after.maxAttempts && before.attempt <= after.attempt
    && before.history <= after.history
    && Path(before.state, after.history[|before.history|..], after.state)
  }

  lemma GrownStep(before: Life, l: Life, after: Life, to: Lifecycle.State, retry: bool)
    requires Grown(before, l) && Allowed(l.state, to) && after.state == to
    requires after.history == l.history + [Entry(l.state, to, retry)]
    requires after.maxAttempts == l.maxAttempts && l.attempt <= after.attempt
    ensures Grown(before, after)
  {
    var n := |before.history|;
    assert after.history[n..] == l.history[n..] + [Entry(l.state, to, retry)];
    assert after.history[n..][..|after.history[n..]| - 1] == l.history[n..];
  }

  /** A dispatched task ends completed or failed, by consecutive attempts that never pass the limit. */
  lemma {:induction false} AttemptsAreBounded(w: World, id: string, before: Life, l: Life)
    requires Lifecycle.Valid(l) && l.state == Ready && Grown(before, l)
    ensures var (end, attempts) := Attempts(w, id, l);
            && Lifecycle.Valid(end) && Grown(before, end)
            && Consecutive(attempts, First(l), end.attempt) && First(l) <= end.attempt <= l.maxAttempts
            && (end.state == Completed || end.state == Failed)
    decreases l.maxAttempts - l.attempt
  {
    var running := DoStart(l, true, Some(w.clock(id, l.attempt))).value;
    StartGrows(before, l, w.clock(id, l.attempt));
    match w.dispatch(id, running.attempt)
    case Completes =>
      GrownStep(before, running, DoComplete(running, true).value, Completed, false);
    case Fails(timedOut, matches) =>
      var failed := DoFail(running, !timedOut).value;
      GrownStep(before, running, failed, Failed, false);
      if !(timedOut || !matches || failed.attempt >= failed.maxAttempts) {
        RetryGrows(before, failed);
        AttemptsAreBounded(w, id, before, DoRetry(failed).value);
      }
  }

  lemma StartGrows(before: Life, l: Life, now: int)
    requires Lifecycle.Valid(l) && l.state == Ready && Grown(before, l)
    ensures var m := DoStart(l, true, Some(now)).value;
            Lifecycle.Valid(m) && m.state == Running && Grown(before, m) && m.attempt == First(l) && m.maxAttempts == l.maxAttempts
  {
    GrownStep(before, l, DoStart(l, true, Some(now)).value, Running, false);
  }

  lemma RetryGrows(before: Life, failed: Life)
    requires Lifecycle.Valid(failed) && failed.state == Failed && Grown(before, failed)
    requires failed.attempt < failed.maxAttempts && failed.retryable
    ensures var m := DoRetry(failed).value;
            Lifecycle.Valid(m) && m.state == Ready && Grown(before, m) && m.attempt == failed.attempt + 1
            && m.maxAttempts == failed.maxAttempts
  {
    GrownStep(before, failed, DoRetry(failed).value, Ready, true);
  }

  /** Which outcomes lead there: only retryable failures before the last attempt, and completion decides the end. */
  lemma {:induction false} AttemptsFollowOutcomes(w: World, id: string, l: Life)
    requires Lifecycle.Valid(l) && l.state == Ready
    ensures var (end, attempts) := Attempts(w, id, l);
            && attempts != []
            && (end.state == Completed <==> w.dispatch(id, attempts[|attempts| - 1]).Completes?)
            && (forall i | 0 <= i < |attempts| - 1 :: w.dispatch(id, attempts[i]) == Fails(false, true))
            && (end.state == Failed ==>
                  w.dispatch(id, attempts[|attempts| - 1]) != Fails(false, true) || end.attempt == l.maxAttempts)
    decreases l.maxAttempts - l.attempt
  {
    var running := DoStart(l, true, Some(w.clock(id, l.attempt))).value;
    match w.dispatch(id, running.attempt)
    case Completes =>
    case Fails(timedOut, matches) =>
      var failed := DoFail(running, !timedOut).value;
      if !(timedOut || !matches || failed.attempt >= failed.maxAttempts) {
        AttemptsFollowOutcomes(w, id, DoRetry(failed).value);
      }
  }

  // ----- blocking what cannot run

  function BlockLife(l: Life): Life {
    Next(l, Block(true))
  }

  predicate MustBlock(p: Plan, lives: Lives, id: string)
    requires id in p.tasks && id in lives
  {
    && Open(lives[id].state)
    && (!Compatible(p, p.tasks[id]) || exists d | d in p.tasks[id].dependsOn :: d in lives && Bad(lives[d].state))
  }

  function BlockOne(p: Plan, lives: Lives, id: string): Lives
    requires id in p.tasks && id in lives
  {
    if MustBlock(p, lives, id) then lives[id := BlockLife(lives[id])] else lives
  }

  /** One pass over the tasks in the given order. */
  function BlockPass(p: Plan, lives: Lives, ids: seq<string>): (r: Lives)
    requires (forall id | id in ids :: id in p.tasks) && p.tasks.Keys <= lives.Keys
    ensures r.Keys == lives.Keys
  {
    if ids == [] then lives else BlockOne(p, BlockPass(p, lives, ids[..|ids| - 1]), ids[|ids| - 1])
  }

  function BlockPasses(p: Plan, lives: Lives, ids: seq<string>, k: nat): (r: Lives)
    requires (forall id | id in ids :: id in p.tasks) && p.tasks.Keys <= lives.Keys
    ensures r.Keys == lives.Keys
  {
    if k == 0 then lives else BlockPass(p, BlockPasses(p, lives, ids, k - 1), ids)
  }

  /** A task that failed, is blocked, has no agent, or depends at distance at most `k` on one that does. */
  ghost predicate Doomed(p: Plan, lives: Lives, id: string, k: nat)
    requires p.tasks.Keys <= lives.Keys
    decreases k
  {
    && id in p.tasks
    && if k == 0 then Bad(lives[id].state)
       else
         || Doomed(p, lives, id, k - 1)
         || (Open(lives[id].state)
             && (!Compatible(p, p.tasks[id]) || exists d :: d in p.tasks[id].dependsOn && Doomed(p, lives, d, k - 1)))
  }

  ghost predicate AnyDoom(p: Plan, lives: Lives, id: string)
    requires p.tasks.Keys <= lives.Keys
  {
    exists k: nat :: Doomed(p, lives, id, k)
  }

  /** A pass changes a life only by blocking it, and only when it was open. */
  ghost predicate Blocks(before: Life, after: Life) {
    after == before || (Open(before.state) && after == BlockLife(before) && after.state == Blocked)
  }

  /** Blocking is sound: only doomed tasks are ever blocked. */
  lemma {:induction false} PassIsSound(p: Plan, lives: Lives, ids: seq<string>)
    requires DependenciesKnown(p) && (forall id | id in ids :: id in p.tasks) && p.tasks.Keys <= lives.Keys
    ensures forall id | id in lives :: Blocks(lives[id], BlockPass(p, lives, ids)[id])
    ensures forall id | id in lives && BlockPass(p, lives, ids)[id] != lives[id] :: AnyDoom(p, lives, id)
  {
    if ids != [] {
      var front, id := ids[..|ids| - 1], ids[|ids| - 1];
      PassIsSound(p, lives, front);
      var mid := BlockPass(p, lives, front);
      if MustBlock(p, mid, id) && mid[id] == lives[id] {
        DoomOfBlocked(p, lives, mid, id);
      }
    }
  }

  lemma DoomOfBlocked(p: Plan, lives: Lives, mid: Lives, id: string)
    requires DependenciesKnown(p) && p.tasks.Keys <= lives.Keys && mid.Keys == lives.Keys && id in p.tasks
    requires forall x | x in lives && mid[x] != lives[x] :: AnyDoom(p, lives, x)
    requires MustBlock(p, mid, id) && mid[id] == lives[id]
    ensures AnyDoom(p, lives, id)
  {
    if !Compatible(p, p.tasks[id]) {
      assert Doomed(p, lives, id, 1);
    } else {
      var d :| d in p.tasks[id].dependsOn && d in mid && Bad(mid[d].state);
      var k: nat := 0;
      if mid[d] == lives[d] {
        assert Doomed(p, lives, d, 0);
      } else {
        k :| Doomed(p, lives, d, k);
      }
      assert Doomed(p, lives, id, k + 1);
    }
  }

  /** One pass settles everything within distance one; `lives` may already be the result of earlier passes. */
  lemma {:induction false} PassReachesOne(p: Plan, lives: Lives, ids: seq<string>, id: string)
    requires DependenciesKnown(p) && (forall x | x in ids :: x in p.tasks) && p.tasks.Keys <= lives.Keys
    requires id in ids && MustBlock(p, lives, id)
    ensures Bad(BlockPass(p, lives, ids)[id].state)
  {
    var front, last := ids[..|ids| - 1], ids[|ids| - 1];
    PassIsSound(p, lives, front);
    var mid := BlockPass(p, lives, front);
    if id in front {
      PassReachesOne(p, lives, front, id);
    } else {
      assert id == last;
      StillMustBlock(p, lives, mid, id);
    }
  }

  /** Blocking others does not take away the reason to block a task. */
  lemma StillMustBlock(p: Plan, lives: Lives, mid: Lives, id: string)
    requires id in p.tasks && id in lives && mid.Keys == lives.Keys && MustBlock(p, lives, id)
    requires forall x | x in lives :: Blocks(lives[x], mid[x])
    ensures Bad(mid[id].state) || MustBlock(p, mid, id)
  {
    if Open(mid[id].state) && Compatible(p, p.tasks[id]) {
      var d :| d in p.tasks[id].dependsOn && d in lives && Bad(lives[d].state);
      assert mid[d] == lives[d];
    }
  }

  /** A doomed task whose doomed dependencies are settled is settled itself or blocked next. */
  lemma DoomCatchesUp(p: Plan, lives: Lives, mid: Lives, id: string, k: nat)
    requires DependenciesKnown(p) && p.tasks.Keys <= lives.Keys && mid.Keys == lives.Keys && k > 0
    requires Doomed(p, lives, id, k) && !Doomed(p, lives, id, k - 1) && Blocks(lives[id], mid[id])
    requires forall d | d in p.tasks[id].dependsOn && Doomed(p, lives, d, k - 1) :: Bad(mid[d].state)
    ensures Bad(mid[id].state) || MustBlock(p, mid, id)
  {
    if Open(mid[id].state) && Compatible(p, p.tasks[id]) {
      var d :| d in p.tasks[id].dependsOn && Doomed(p, lives, d, k - 1);
      assert Bad(mid[d].state);
    }
  }

  /** `k` passes, in any order of ids, settle every task doomed at distance `k`. */
  lemma {:induction false} PassesReach(p: Plan, lives: Lives, ids: seq<string>, k: nat, id: string)
    requires DependenciesKnown(p) && (forall x :: x in ids <==> x in p.tasks) && p.tasks.Keys <= lives.Keys
    requires Doomed(p, lives, id, k)
    ensures Bad(BlockPasses(p, lives, ids, k)[id].state)
    decreases k
  {
    if k > 0 {
      var mid := BlockPasses(p, lives, ids, k - 1);
      if Doomed(p, lives, id, k - 1) {
        PassesReach(p, lives, ids, k - 1, id);
      } else {
        forall d | d in p.tasks[id].dependsOn && Doomed(p, lives, d, k - 1)
          ensures Bad(mid[d].state)
        {
          PassesReach(p, lives, ids, k - 1, d);
        }
        PassesOnlyBlock(p, lives, ids, k - 1);
        DoomCatchesUp(p, lives, mid, id, k);
      }
      SettledByPass(p, mid, ids, id);
    }
  }

  lemma SettledByPass(p: Plan, mid: Lives, ids: seq<string>, id: string)
    requires DependenciesKnown(p) && (forall x | x in ids :: x in p.tasks) && p.tasks.Keys <= mid.Keys
    requires id in ids && (Bad(mid[id].state) || MustBlock(p, mid, id))
    ensures Bad(BlockPass(p, mid, ids)[id].state)
  {
    PassIsSound(p, mid, ids);
    if MustBlock(p, mid, id) { PassReachesOne(p, mid, ids, id); }
  }

  lemma {:induction false} PassesOnlyBlock(p: Plan, lives: Lives, ids: seq<string>, k: nat)
    requires DependenciesKnown(p) && (forall x | x in ids :: x in p.tasks) && p.tasks.Keys <= lives.Keys
    ensures forall id | id in lives :: Blocks(lives[id], BlockPasses(p, lives, ids, k)[id])
  {
    if k > 0 {
      PassesOnlyBlock(p, lives, ids, k - 1);
      PassIsSound(p, BlockPasses(p, lives, ids, k - 1), ids);
    }
  }

  /** Every task comes after all its dependencies. */
  ghost predicate Topological(p: Plan, ids: seq<string>) {
    && (forall id | id in ids :: id in p.tasks)
    && forall i, d | 0 <= i < |ids| && d in p.tasks[ids[i]].dependsOn :: d in ids[..i]
  }

  lemma TopologicalFront(p: Plan, ids: seq<string>)
    requires Topological(p, ids) && ids != []
    ensures Topological(p, ids[..|ids| - 1])
  {
    var front := ids[..|ids| - 1];
    forall i, d | 0 <= i < |front| && d in p.tasks[front[i]].dependsOn
      ensures d in front[..i]
    {
      assert ids[i] == front[i] && ids[..i] == front[..i];
    }
  }

  lemma LastIsReached(p: Plan, lives: Lives, ids: seq<string>, last: string, k: nat)
    requires DependenciesKnown(p) && (forall x | x in ids :: x in p.tasks) && p.tasks.Keys <= lives.Keys
    requires ids != [] && last == ids[|ids| - 1] && k > 0
    requires Doomed(p, lives, last, k) && !Doomed(p, lives, last, k - 1)
    requires forall d | d in p.tasks[last].dependsOn && Doomed(p, lives, d, k - 1) ::
               Bad(BlockPass(p, lives, ids[..|ids| - 1])[d].state)
    ensures Bad(BlockPass(p, lives, ids)[last].state)
  {
    var front := ids[..|ids| - 1];
    PassIsSound(p, lives, front);
    DoomCatchesUp(p, lives, BlockPass(p, lives, front), last, k);
  }

  /** When ids sort in dependency order, a single pass reaches the whole transitive closure. */
  lemma {:induction false} TopologicalPassReaches(p: Plan, lives: Lives, ids: seq<string>, id: string, k: nat)
    requires DependenciesKnown(p) && Topological(p, ids) && p.tasks.Keys <= lives.Keys
    requires id in ids && Doomed(p, lives, id, k)
    ensures Bad(BlockPass(p, lives, ids)[id].state)
    decreases |ids|, k
  {
    var n := |ids| - 1;
    if k == 0 {
      PassIsSound(p, lives, ids);
    } else if Doomed(p, lives, id, k - 1) {
      TopologicalPassReaches(p, lives, ids, id, k - 1);
    } else if id in ids[..n] {
      TopologicalFront(p, ids);
      TopologicalPassReaches(p, lives, ids[..n], id, k);
    } else {
      TopologicalFront(p, ids);
      assert id == ids[n];
      forall d | d in p.tasks[id].dependsOn && Doomed(p, lives, d, k - 1)
        ensures Bad(BlockPass(p, lives, ids[..n])[d].state)
      {
        assert d in ids[..n];
        TopologicalPassReaches(p, lives, ids[..n], d, k - 1);
      }
      LastIsReached(p, lives, ids, id, k);
    }
  }

  /** Then a pass leaves failed or blocked exactly the tasks that are doomed. */
  lemma TopologicalPassExactly(p: Plan, lives: Lives, id: string)
    requires ValidPlan(p) && ValidLives(p, lives) && Topological(p, p.ids) && id in p.tasks
    ensures Bad(BlockPass(p, lives, p.ids)[id].state) <==> AnyDoom(p, lives, id)
  {
    PassIsSound(p, lives, p.ids);
    if Bad(lives[id].state) { assert Doomed(p, lives, id, 0); }
    if AnyDoom(p, lives, id) {
      var k: nat :| Doomed(p, lives, id, k);
      TopologicalPassReaches(p, lives, p.ids, id, k);
    }
  }

  // ----- exactly what a pass reaches, in any order of ids

  /** Blocked already, or blocked at one of its turns in a pass over `ids`. */
  ghost predicate Falls(p: Plan, lives: Lives, ids: seq<string>, id: string)
    requires DependenciesKnown(p) && p.tasks.Keys <= lives.Keys && id in p.tasks
    decreases |ids|, 1
  {
    Bad(lives[id].state) || exists i :: FallsAt(p, lives, ids, i, id)
  }

  /** The i-th turn is the task's, and it has no agent or depends on a task that falls in the turns before. */
  ghost predicate FallsAt(p: Plan, lives: Lives, ids: seq<string>, i: int, id: string)
    requires DependenciesKnown(p) && p.tasks.Keys <= lives.Keys && id in p.tasks
    decreases |ids|, 0
  {
    && 0 <= i < |ids| && ids[i] == id && Open(lives[id].state)
    && (!Compatible(p, p.tasks[id]) || exists d | d in p.tasks[id].dependsOn :: Falls(p, lives, ids[..i], d))
  }

  lemma {:induction false} FallsFront(p: Plan, lives: Lives, ids: seq<string>, i: int, id: string)
    requires DependenciesKnown(p) && p.tasks.Keys <= lives.Keys && id in p.tasks && 0 <= i < |ids| - 1
    ensures FallsAt(p, lives, ids, i, id) <==> FallsAt(p, lives, ids[..|ids| - 1], i, id)
  {
    assert ids[..|ids| - 1][..i] == ids[..i];
  }

  /** A task falls within a sequence exactly when it falls within its front or at the last turn. */
  lemma {:induction false} FallsNext(p: Plan, lives: Lives, ids: seq<string>, id: string)
    requires DependenciesKnown(p) && p.tasks.Keys <= lives.Keys && id in p.tasks && ids != []
    ensures Falls(p, lives, ids, id) <==> Falls(p, lives, ids[..|ids| - 1], id) || FallsAt(p, lives, ids, |ids| - 1, id)
  {
    var front := ids[..|ids| - 1];
    if i :| FallsAt(p, lives, front, i, id) { FallsFront(p, lives, ids, i, id); }
    if i :| FallsAt(p, lives, ids, i, id) && i < |ids| - 1 { FallsFront(p, lives, ids, i, id); }
  }

  /** One pass, in whatever order and from whatever lives, leaves failed or blocked exactly the tasks that fall. */
  lemma {:induction false} PassExactly(p: Plan, lives: Lives, ids: seq<string>, id: string)
    requires DependenciesKnown(p) && (forall x | x in ids :: x in p.tasks) && p.tasks.Keys <= lives.Keys && id in p.tasks
    ensures Bad(BlockPass(p, lives, ids)[id].state) <==> Falls(p, lives, ids, id)
    decreases |ids|
  {
    if ids != [] {
      var front, last := ids[..|ids| - 1], ids[|ids| - 1];
      var mid := BlockPass(p, lives, front);
      PassExactly(p, lives, front, id);
      FallsNext(p, lives, ids, id);
      if id == last {
        PassIsSound(p, lives, front);
        assert Blocks(lives[id], mid[id]);
        forall d | d in p.tasks[id].dependsOn
          ensures Bad(mid[d].state) <==> Falls(p, lives, front, d)
        {
          PassExactly(p, lives, front, d);
        }
      }
    }
  }

  /** Every task that is doomed falls in one pass over all ids. */
  ghost predicate PassSettles(p: Plan, lives: Lives)
    requires ValidPlan(p) && ValidLives(p, lives)
  {
    forall id | id in p.tasks && AnyDoom(p, lives, id) :: Bad(BlockPass(p, lives, p.ids)[id].state)
  }

  /** `d` has its turn after `x`. */
  predicate SortsAfter(ids: seq<string>, x: string, d: string) {
    exists i, j :: 0 <= i < j < |ids| && ids[i] == x && ids[j] == d
  }

  /**
    Whatever dooms a later dependency of a task can doom the task directly: the dependency has an agent, and depends
    only on what the task depends on itself.
  */
  ghost predicate OrderIsEnough(p: Plan)
    requires DependenciesKnown(p)
  {
    forall x, d | x in p.tasks && d in p.tasks[x].dependsOn && SortsAfter(p.ids, x, d) && Compatible(p, p.tasks[x]) :: Harmless(p, x, d)
  }

  predicate Harmless(p: Plan, x: string, d: string)
    requires x in p.tasks && d in p.tasks
  {
    Compatible(p, p.tasks[d]) && p.tasks[d].dependsOn <= p.tasks[x].dependsOn + {x}
  }

  lemma {:induction false} FallsMore(p: Plan, lives: Lives, ids: seq<string>, n: nat, id: string)
    requires DependenciesKnown(p) && p.tasks.Keys <= lives.Keys && id in p.tasks && n <= |ids|
    requires Falls(p, lives, ids[..n], id)
    ensures Falls(p, lives, ids, id)
    decreases |ids|
  {
    if n == |ids| {
      assert ids[..n] == ids;
    } else {
      assert ids[..|ids| - 1][..n] == ids[..n];
      FallsMore(p, lives, ids[..|ids| - 1], n, id);
      FallsNext(p, lives, ids, id);
    }
  }

  /** What dooms a harmless dependency dooms the task as soon. */
  lemma {:induction false} HarmlessReasonIsOwn(p: Plan, lives: Lives, x: string, d: string, k: nat)
    requires DependenciesKnown(p) && p.tasks.Keys <= lives.Keys && x in p.tasks && d in p.tasks[x].dependsOn && k > 0
    requires Open(lives[x].state) && Doomed(p, lives, d, k)
    ensures Harmless(p, x, d) ==> Doomed(p, lives, x, k)
  {
  }

  lemma {:induction false} SettledInTurn(p: Plan, lives: Lives, n: nat, x: string, k: nat)
    requires ValidPlan(p) && OrderIsEnough(p) && p.tasks.Keys <= lives.Keys
    requires n < |p.ids| && p.ids[n] == x && Doomed(p, lives, x, k)
    ensures Falls(p, lives, p.ids[..n + 1], x)
    decreases n, k
  {
    if k > 0 && Doomed(p, lives, x, k - 1) {
      SettledInTurn(p, lives, n, x, k - 1);
    } else if k > 0 {
      if Compatible(p, p.tasks[x]) {
        var d :| d in p.tasks[x].dependsOn && Doomed(p, lives, d, k - 1);
        var m :| 0 <= m < |p.ids| && p.ids[m] == d;
        ReasonFalls(p, lives, n, x, m, d, k);
      }
      assert p.ids[..n + 1][..n] == p.ids[..n];
      assert FallsAt(p, lives, p.ids[..n + 1], n, x);
    }
  }

  lemma {:induction false} ReasonFalls(p: Plan, lives: Lives, n: nat, x: string, m: nat, d: string, k: nat)
    requires ValidPlan(p) && OrderIsEnough(p) && p.tasks.Keys <= lives.Keys
    requires n < |p.ids| && p.ids[n] == x && m < |p.ids| && p.ids[m] == d && d in p.tasks[x].dependsOn
    requires k > 0 && Open(lives[x].state) && Compatible(p, p.tasks[x]) && !Doomed(p, lives, x, k - 1) && Doomed(p, lives, d, k - 1)
    ensures Falls(p, lives, p.ids[..n], d)
    decreases n, k, 0
  {
    if k > 1 { HarmlessReasonIsOwn(p, lives, x, d, k - 1); }
    assert m > n ==> SortsAfter(p.ids, x, d);
    if m < n {
      SettledInTurn(p, lives, m, d, k - 1);
      assert p.ids[..n][..m + 1] == p.ids[..m + 1];
      FallsMore(p, lives, p.ids[..n], m + 1, d);
    }
  }

  /** Lives in which `x` and `d` wait, `bad` failed, and every other task is done. */
  function Waiters(p: Plan, x: string, d: string, bad: Option<string>): Lives {
    map id | id in p.tasks ::
      Life(if id == x || id == d then Pending else if bad == Some(id) then Failed else Completed, 1, 1, true, None, None, false, [])
  }

  /** The reason that is not the task's own: the failed dependency of `d`, unless `d` has no agent. */
  ghost predicate Culprit(p: Plan, x: string, d: string, bad: Option<string>)
    requires x in p.tasks && d in p.tasks
  {
    if bad.None? then !Compatible(p, p.tasks[d])
    else bad.value in p.tasks[d].dependsOn && bad.value !in p.tasks[x].dependsOn && bad.value != x
  }

  lemma {:induction false} WaiterIsDoomed(p: Plan, x: string, d: string, bad: Option<string>)
    requires ValidPlan(p) && x in p.tasks && d in p.tasks[x].dependsOn && Culprit(p, x, d, bad) && x != d
    ensures AnyDoom(p, Waiters(p, x, d, bad), x)
  {
    var lives := Waiters(p, x, d, bad);
    assert Doomed(p, lives, d, 1) by { if bad.Some? { assert Doomed(p, lives, bad.value, 0); } }
    assert Doomed(p, lives, x, 2);
  }

  lemma {:induction false} WaiterSeesNothing(p: Plan, x: string, d: string, bad: Option<string>, i: nat, j: nat, y: string)
    requires ValidPlan(p) && i < j < |p.ids| && p.ids[i] == x && p.ids[j] == d && x in p.tasks && d in p.tasks[x].dependsOn
    requires Culprit(p, x, d, bad) && y in p.tasks[x].dependsOn
    ensures !Falls(p, Waiters(p, x, d, bad), p.ids[..i], y)
  {
    forall t
      ensures !FallsAt(p, Waiters(p, x, d, bad), p.ids[..i], t, y)
    {
      if 0 <= t < i { assert p.ids[..i][t] == p.ids[t] != x && p.ids[t] != d; }
    }
  }

  lemma {:induction false} WaiterIsPassed(p: Plan, x: string, d: string, bad: Option<string>, i: nat, j: nat)
    requires ValidPlan(p) && i < j < |p.ids| && p.ids[i] == x && p.ids[j] == d && x in p.tasks && d in p.tasks[x].dependsOn
    requires Compatible(p, p.tasks[x]) && Culprit(p, x, d, bad)
    ensures !Falls(p, Waiters(p, x, d, bad), p.ids, x)
  {
    var lives := Waiters(p, x, d, bad);
    forall y | y in p.tasks[x].dependsOn
      ensures !Falls(p, lives, p.ids[..i], y)
    {
      WaiterSeesNothing(p, x, d, bad, i, j, y);
    }
    forall n
      ensures !FallsAt(p, lives, p.ids, n, x)
    {
      if 0 <= n < |p.ids| && p.ids[n] == x { assert n == i; }
    }
  }

  /** A pass from such lives leaves the doomed task waiting. */
  lemma {:induction false} HarmUnsettles(p: Plan, x: string, d: string)
    requires ValidPlan(p) && x in p.tasks && d in p.tasks[x].dependsOn && SortsAfter(p.ids, x, d)
    requires Compatible(p, p.tasks[x]) && !Harmless(p, x, d)
    ensures exists lives :: ValidLives(p, lives) && !PassSettles(p, lives)
  {
    var i, j :| 0 <= i < j < |p.ids| && p.ids[i] == x && p.ids[j] == d;
    assert x != d by { assert Order.Distinct(p.ids); }
    var bad := SomeCulprit(p, x, d);
    WaiterIsDoomed(p, x, d, bad);
    WaiterIsPassed(p, x, d, bad, i, j);
    WaitersAreValid(p, x, d, bad);
    PassExactly(p, Waiters(p, x, d, bad), p.ids, x);
    assert !PassSettles(p, Waiters(p, x, d, bad));
  }

  lemma SomeCulprit(p: Plan, x: string, d: string) returns (bad: Option<string>)
    requires x in p.tasks && d in p.tasks && !Harmless(p, x, d)
    ensures Culprit(p, x, d, bad)
  {
    bad := None;
    if Compatible(p, p.tasks[d]) {
      var y :| y in p.tasks[d].dependsOn && y !in p.tasks[x].dependsOn + {x};
      bad := Some(y);
    }
  }

  lemma WaitersAreValid(p: Plan, x: string, d: string, bad: Option<string>)
    ensures ValidLives(p, Waiters(p, x, d, bad))
  {
  }

  /**
    From all lives alike a pass settles every doomed task, exactly when no task with an agent has a dependency that
    sorts after it and has no agent, or depends on something else than the task itself does.
  */
  lemma {:induction false} PassSettlesExactly(p: Plan)
    requires ValidPlan(p)
    ensures OrderIsEnough(p) <==> forall lives | ValidLives(p, lives) :: PassSettles(p, lives)
  {
    if OrderIsEnough(p) {
      forall lives | ValidLives(p, lives)
        ensures PassSettles(p, lives)
      {
        OrderedPassSettles(p, lives);
      }
    } else {
      var x, d :| x in p.tasks && d in p.tasks[x].dependsOn && SortsAfter(p.ids, x, d) && Compatible(p, p.tasks[x]) && !Harmless(p, x, d);
      HarmUnsettles(p, x, d);
    }
  }

  lemma {:induction false} OrderedPassSettles(p: Plan, lives: Lives)
    requires ValidPlan(p) && ValidLives(p, lives) && OrderIsEnough(p)
    ensures PassSettles(p, lives)
  {
    forall id | id in p.tasks && AnyDoom(p, lives, id)
      ensures Bad(BlockPass(p, lives, p.ids)[id].state)
    {
      var k: nat :| Doomed(p, lives, id, k);
      var n :| 0 <= n < |p.ids| && p.ids[n] == id;
      SettledInTurn(p, lives, n, id, k);
      FallsMore(p, lives, p.ids, n + 1, id);
      PassExactly(p, lives, p.ids, id);
    }
  }

  lemma TopologicalIsBefore(p: Plan, x: string, d: string)
    requires ValidPlan(p) && Topological(p, p.ids) && x in p.tasks && d in p.tasks[x].dependsOn
    ensures !SortsAfter(p.ids, x, d)
  {
    forall i, j | 0 <= i < j < |p.ids| && p.ids[i] == x
      ensures p.ids[j] != d
    {
      assert d in p.ids[..i];
    }
  }

  /** Dependency order is one way to meet the condition. */
  lemma TopologicalIsEnough(p: Plan)
    requires ValidPlan(p) && Topological(p, p.ids)
    ensures OrderIsEnough(p)
  {
    forall x, d | x in p.tasks && d in p.tasks[x].dependsOn
      ensures !SortsAfter(p.ids, x, d)
    {
      TopologicalIsBefore(p, x, d);
    }
  }

  // ----- ids in the opposite order

  lemma {:induction false} PassAppend(p: Plan, lives: Lives, ids: seq<string>, id: string)
    requires (forall x | x in ids + [id] :: x in p.tasks) && p.tasks.Keys <= lives.Keys
    ensures BlockPass(p, lives, ids + [id]) == BlockOne(p, BlockPass(p, lives, ids), id)
  {
    assert (ids + [id])[..|ids|] == ids;
  }

  lemma PassOfFour(p: Plan, lives: Lives, a: string, b: string, c: string, d: string)
    requires {a, b, c, d} <= p.tasks.Keys <= lives.Keys
    ensures BlockPass(p, lives, [a, b, c, d]) == BlockOne(p, BlockOne(p, BlockOne(p, BlockOne(p, lives, a), b), c), d)
  {
    assert [] + [a] == [a] && [a] + [b] == [a, b] && [a, b] + [c] == [a, b, c] && [a, b, c] + [d] == [a, b, c, d];
    PassAppend(p, lives, [], a);
    PassAppend(p, lives, [a], b);
    PassAppend(p, lives, [a, b], c);
    PassAppend(p, lives, [a, b, c], d);
  }

  /** A plan without agents in which a depends on b, b on c, and c on d; its ids run a, b, c, d. */
  ghost predicate ReversedChain(p: Plan, a: string, b: string, c: string, d: string) {
    && p.agents == [] && p.ids == [a, b, c, d] && Order.Distinct(p.ids) && p.tasks.Keys == {a, b, c, d}
    && p.tasks[a].dependsOn == {b} && p.tasks[b].dependsOn == {c} && p.tasks[c].dependsOn == {d}
    && p.tasks[d].dependsOn == {}
  }

  lemma LinkBlocks(p: Plan, lives: Lives, id: string, dependency: string)
    requires p.agents == [] && id in p.tasks && p.tasks[id].dependsOn == {dependency}
    requires id in lives && dependency in lives
    ensures BlockOne(p, lives, id) ==
            if Open(lives[id].state) && Bad(lives[dependency].state) then lives[id := BlockLife(lives[id])] else lives
  {
    assert MustBlock(p, lives, id) <==> Open(lives[id].state) && Bad(lives[dependency].state);
  }

  /** A pass moves the blocking one link down the chain. */
  lemma {:induction false} ChainPass(p: Plan, lives: Lives, a: string, b: string, c: string, d: string)
    requires ReversedChain(p, a, b, c, d) && lives.Keys == p.tasks.Keys && lives[d].state == Failed
    ensures var after := BlockPass(p, lives, p.ids);
            && after[d] == lives[d]
            && after[c] == (if Open(lives[c].state) then BlockLife(lives[c]) else lives[c])
            && after[b] == (if Open(lives[b].state) && Bad(lives[c].state) then BlockLife(lives[b]) else lives[b])
            && after[a] == (if Open(lives[a].state) && Bad(lives[b].state) then BlockLife(lives[a]) else lives[a])
  {
    assert p.ids[0] == a && p.ids[1] == b && p.ids[2] == c && p.ids[3] == d;
    PassOfFour(p, lives, a, b, c, d);
    LinkBlocks(p, lives, a, b);
    var l1 := BlockOne(p, lives, a);
    LinkBlocks(p, l1, b, c);
    var l2 := BlockOne(p, l1, b);
    LinkBlocks(p, l2, c, d);
  }

  /**
    Whenever ids sort against the dependencies, a doomed task three links from the failure still waits after the two
    passes that follow a failure in the last wave; a third pass would block it.
  */
  lemma {:induction false} ReversedChainWaits(p: Plan, lives: Lives, a: string, b: string, c: string, d: string)
    requires ReversedChain(p, a, b, c, d) && lives.Keys == p.tasks.Keys
    requires lives[a].state == Pending && lives[b].state == Pending && lives[c].state == Pending && lives[d].state == Failed
    ensures AnyDoom(p, lives, a)
    ensures BlockPasses(p, lives, p.ids, 2)[a] == lives[a] && BlockPasses(p, lives, p.ids, 3)[a].state == Blocked
  {
    ChainTwice(p, lives, a, b, c, d);
    ChainPass(p, BlockPasses(p, lives, p.ids, 2), a, b, c, d);
    ChainIsDoomed(p, lives, a, b, c, d);
  }

  lemma {:induction false} ChainTwice(p: Plan, lives: Lives, a: string, b: string, c: string, d: string)
    requires ReversedChain(p, a, b, c, d) && lives.Keys == p.tasks.Keys
    requires lives[a].state == Pending && lives[b].state == Pending && lives[c].state == Pending && lives[d].state == Failed
    ensures var l2 := BlockPasses(p, lives, p.ids, 2);
            l2[a] == lives[a] && l2[b].state == Blocked && l2[c].state == Blocked && l2[d] == lives[d]
  {
    var l1 := BlockPass(p, lives, p.ids);
    ChainPass(p, lives, a, b, c, d);
    ChainPass(p, l1, a, b, c, d);
    assert BlockPasses(p, lives, p.ids, 0) == lives && BlockPasses(p, lives, p.ids, 1) == l1;
  }

  lemma {:induction false} ChainIsDoomed(p: Plan, lives: Lives, a: string, b: string, c: string, d: string)
    requires ReversedChain(p, a, b, c, d) && lives.Keys == p.tasks.Keys
    requires lives[a].state == Pending && lives[b].state == Pending && lives[c].state == Pending && lives[d].state == Failed
    ensures Doomed(p, lives, a, 3)
  {
    assert Doomed(p, lives, d, 0);
    assert Doomed(p, lives, c, 1) by { assert d in p.tasks[c].dependsOn; }
    assert Doomed(p, lives, b, 2) by { assert c in p.tasks[b].dependsOn; }
    assert Doomed(p, lives, a, 3) by { assert b in p.tasks[a].dependsOn; }
  }

  /** After a pass in dependency order nothing is left to block. */
  lemma NothingLeftToBlock(p: Plan, lives: Lives, id: string)
    requires ValidPlan(p) && ValidLives(p, lives) && Topological(p, p.ids) && id in p.tasks
    ensures !MustBlock(p, BlockPass(p, lives, p.ids), id)
  {
    var after := BlockPass(p, lives, p.ids);
    PassIsSound(p, lives, p.ids);
    if MustBlock(p, after, id) {
      DoomOfBlocked(p, lives, after, id);
      TopologicalPassExactly(p, lives, id);
    }
  }

  // ----- what a run keeps

  /** One task's execution: blocked if it cannot run, otherwise run to its end. */
  function ExecuteLife(p: Plan, w: World, id: string, l: Life): (Life, seq<nat>)
    requires id in p.tasks && Lifecycle.Valid(l) && Waits(l.state)
  {
    var t := p.tasks[id];
    if !Compatible(p, t) || !t.inputsAvailable || t.blockedCondition then (BlockLife(l), [])
    else Attempts(w, id, Readied(l))
  }

  function Readied(l: Life): (r: Life)
    requires Lifecycle.Valid(l) && Waits(l.state)
    ensures Lifecycle.Valid(r) && r.state == Ready
  {
    if l.state == Pending then Next(l, MarkReady) else l
  }

  function Entries(id: string, attempts: seq<nat>, done: set<string>): (r: seq<Dispatch>)
    ensures |r| == |attempts| && forall i | 0 <= i < |r| :: r[i] == Dispatch(id, attempts[i], done)
  {
    seq(|attempts|, i requires 0 <= i < |attempts| => Dispatch(id, attempts[i], done))
  }

  lemma EntriesAppend(id: string, tried: seq<nat>, attempt: nat, done: set<string>)
    ensures Entries(id, tried + [attempt], done) == Entries(id, tried, done) + [Dispatch(id, attempt, done)]
  {
  }

  /** What is left of a task's attempts after those already tried. */
  ghost predicate Left(whole: (Life, seq<nat>), w: World, id: string, l: Life, tried: seq<nat>, finished: bool) {
    if finished then whole == (l, tried)
    else
      && Lifecycle.Valid(l) && l.state == Ready
      && whole.0 == Attempts(w, id, l).0 && whole.1 == tried + Attempts(w, id, l).1
  }

  lemma LeftAtStart(w: World, id: string, l: Life)
    requires Lifecycle.Valid(l) && l.state == Ready
    ensures Left(Attempts(w, id, l), w, id, l, [], false)
  {
    assert [] + Attempts(w, id, l).1 == Attempts(w, id, l).1;
  }

  /** The attempts of one task among the dispatches. */
  function OfTask(log: seq<Dispatch>, id: string): seq<nat> {
    if log == [] then []
    else OfTask(log[..|log| - 1], id) + if log[|log| - 1].id == id then [log[|log| - 1].attempt] else []
  }

  /** How a run may change one task, given the attempts it dispatched for it. */
  ghost predicate Track(before: Life, after: Life, mine: seq<nat>) {
    && Lifecycle.Valid(after) && Grown(before, after)
    && (!Open(before.state) ==> after == before)
    && (Waits(after.state) ==> after == before)
    && (mine != [] ==>
          && Waits(before.state) && (after.state == Completed || after.state == Failed)
          && Consecutive(mine, First(before), after.attempt))
  }

  /** A dispatch was allowed when it was made. */
  ghost predicate Justified(p: Plan, lives: Lives, e: Dispatch) {
    && e.id in p.tasks
    && var t := p.tasks[e.id];
    && DependenciesOver(p, e.done, t) && EarlierWavesOver(p, e.done, t.wave)
    && GatesOf(p, t.wave) <= p.gatesPassed && Compatible(p, t) && t.inputsAvailable && !t.blockedCondition
    && e.done <= Done(lives)
  }

  ghost predicate TrackedLives(start: Lives, lives: Lives, log: seq<Dispatch>) {
    start.Keys == lives.Keys && forall id | id in lives :: Track(start[id], lives[id], OfTask(log, id))
  }

  /** Every dispatch was allowed, and none comes after one that waited for its task. */
  ghost predicate JustifiedLog(p: Plan, lives: Lives, log: seq<Dispatch>) {
    && (forall e | e in log :: Justified(p, lives, e))
    && (forall i, j | 0 <= i <= j < |log| :: log[j].id !in log[i].done)
  }

  ghost predicate Tracked(p: Plan, start: Lives, lives: Lives, log: seq<Dispatch>) {
    lives.Keys == p.tasks.Keys && TrackedLives(start, lives, log) && JustifiedLog(p, lives, log)
  }

  lemma {:induction false} OfTaskAppend(log: seq<Dispatch>, more: seq<Dispatch>, id: string)
    ensures OfTask(log + more, id) == OfTask(log, id) + OfTask(more, id)
  {
    if more == [] {
      assert log + more == log;
    } else {
      assert (log + more)[..|log + more| - 1] == log + more[..|more| - 1];
      OfTaskAppend(log, more[..|more| - 1], id);
    }
  }

  lemma {:induction false} OfTaskEntries(id: string, attempts: seq<nat>, done: set<string>, other: string)
    ensures OfTask(Entries(id, attempts, done), other) == if other == id then attempts else []
  {
    if attempts != [] {
      var front := attempts[..|attempts| - 1];
      assert Entries(id, attempts, done)[..|attempts| - 1] == Entries(id, front, done);
      OfTaskEntries(id, front, done, other);
      assert attempts == front + [attempts[|attempts| - 1]];
    }
  }

  lemma ExecuteTracks(p: Plan, w: World, id: string, l: Life)
    requires id in p.tasks && Lifecycle.Valid(l) && Waits(l.state)
    ensures var (end, attempts) := ExecuteLife(p, w, id, l);
            Track(l, end, attempts) && !Open(end.state)
  {
    var t := p.tasks[id];
    if !Compatible(p, t) || !t.inputsAvailable || t.blockedCondition {
      GrownStep(l, l, BlockLife(l), Blocked, false);
    } else if l.state == Pending {
      var ready := Next(l, MarkReady);
      GrownStep(l, l, ready, Ready, false);
      AttemptsAreBounded(w, id, l, ready);
    } else {
      AttemptsAreBounded(w, id, l, l);
    }
  }

  lemma DoneGrows(lives: Lives, id: string, l: Life)
    requires id in lives && Waits(lives[id].state)
    ensures Done(lives) <= Done(lives[id := l])
  {
  }

  predicate MayDispatch(p: Plan, lives: Lives, id: string)
    requires id in p.tasks && id in lives
  {
    && Waits(lives[id].state) && p.tasks[id].startable
    && DependenciesOver(p, Done(lives), p.tasks[id]) && EarlierWavesOver(p, Done(lives), p.tasks[id].wave)
    && GatesOf(p, p.tasks[id].wave) <= p.gatesPassed
  }

  lemma TracksAll(p: Plan, w: World, start: Lives, lives: Lives, log: seq<Dispatch>, id: string)
    requires TrackedLives(start, lives, log) && id in p.tasks && id in lives && Waits(lives[id].state) && Lifecycle.Valid(lives[id])
    ensures var (end, attempts) := ExecuteLife(p, w, id, lives[id]);
            TrackedLives(start, lives[id := end], log + Entries(id, attempts, Done(lives)))
  {
    var (end, attempts) := ExecuteLife(p, w, id, lives[id]);
    ExecuteTracks(p, w, id, lives[id]);
    forall x | x in lives
      ensures Track(start[x], lives[id := end][x], OfTask(log + Entries(id, attempts, Done(lives)), x))
    {
      TrackExecuted(start[x], lives[x], x == id, end, attempts, log, Entries(id, attempts, Done(lives)), id, Done(lives), x);
    }
  }

  /** The dispatches of one execution were allowed, and come after every dispatch of a task they waited for. */
  lemma ExecuteJustified(p: Plan, w: World, lives: Lives, log: seq<Dispatch>, id: string)
    requires id in p.tasks && id in lives && Lifecycle.Valid(lives[id]) && MayDispatch(p, lives, id)
    requires JustifiedLog(p, lives, log)
    ensures var (end, attempts) := ExecuteLife(p, w, id, lives[id]);
            JustifiedLog(p, lives[id := end], log + Entries(id, attempts, Done(lives)))
  {
    var (end, attempts) := ExecuteLife(p, w, id, lives[id]);
    var after, entries := lives[id := end], Entries(id, attempts, Done(lives));
    DoneGrows(lives, id, end);
    forall e | e in entries
      ensures Justified(p, after, e) && e.id == id && e.done == Done(lives)
    {
      NewEntryJustified(p, w, lives, after, id, e);
    }
    DispatchOrder(p, lives, after, log, entries, id);
  }

  lemma TrackedExecute(p: Plan, w: World, start: Lives, lives: Lives, log: seq<Dispatch>, id: string)
    requires Tracked(p, start, lives, log) && id in lives && MayDispatch(p, lives, id)
    ensures var (end, attempts) := ExecuteLife(p, w, id, lives[id]);
            Tracked(p, start, lives[id := end], log + Entries(id, attempts, Done(lives)))
  {
    assert Track(start[id], lives[id], OfTask(log, id));
    TracksAll(p, w, start, lives, log, id);
    ExecuteJustified(p, w, lives, log, id);
  }

  lemma TrackExecuted(before: Life, l: Life, mine: bool, end: Life, attempts: seq<nat>, log: seq<Dispatch>, entries: seq<Dispatch>,
                      id: string, done: set<string>, x: string)
    requires Track(before, l, OfTask(log, x)) && mine == (x == id) && entries == Entries(id, attempts, done)
    requires mine ==> Waits(l.state) && Track(l, end, attempts)
    ensures Track(before, if mine then end else l, OfTask(log + entries, x))
  {
    OfTaskAppend(log, entries, x);
    OfTaskEntries(id, attempts, done, x);
    if mine { assert before == l && OfTask(log, x) == []; }
  }

  lemma NewEntryJustified(p: Plan, w: World, lives: Lives, after: Lives, id: string, e: Dispatch)
    requires id in p.tasks && id in lives && Lifecycle.Valid(lives[id]) && MayDispatch(p, lives, id)
    requires e in Entries(id, ExecuteLife(p, w, id, lives[id]).1, Done(lives)) && Done(lives) <= Done(after)
    ensures Justified(p, after, e) && e.id == id && e.done == Done(lives)
  {
  }

  lemma DispatchOrder(p: Plan, lives: Lives, after: Lives, log: seq<Dispatch>, entries: seq<Dispatch>, id: string)
    requires id in p.tasks && id !in Done(lives) && Done(lives) <= Done(after)
    requires forall e | e in log :: Justified(p, lives, e)
    requires forall i, j | 0 <= i <= j < |log| :: log[j].id !in log[i].done
    requires forall e | e in entries :: e.id == id && e.done == Done(lives)
    requires forall e | e in entries :: Justified(p, after, e)
    ensures forall e | e in log + entries :: Justified(p, after, e)
    ensures forall i, j | 0 <= i <= j < |log + entries| :: (log + entries)[j].id !in (log + entries)[i].done
  {
    var all := log + entries;
    forall e | e in log
      ensures Justified(p, after, e)
    {
      JustifiedKept(p, lives, after, e);
    }
    forall i, j | 0 <= i <= j < |all|
      ensures all[j].id !in all[i].done
    {
      assert all[i] in log || all[i] in entries;
      if j >= |log| { assert all[j] in entries; }
    }
  }

  lemma DoneKept(lives: Lives, after: Lives)
    requires after.Keys == lives.Keys && forall id | id in lives :: Blocks(lives[id], after[id])
    ensures Done(after) == Done(lives)
  {
    forall id | id in lives
      ensures id in Done(after) <==> id in Done(lives)
    {
      assert Blocks(lives[id], after[id]);
    }
  }

  lemma TrackBlock(before: Life, l: Life, after: Life, mine: seq<nat>)
    requires Track(before, l, mine) && Blocks(l, after)
    ensures Track(before, after, mine)
  {
    if after != l { GrownStep(before, l, after, Blocked, false); }
  }

  lemma JustifiedKept(p: Plan, lives: Lives, after: Lives, e: Dispatch)
    requires Justified(p, lives, e) && Done(lives) <= Done(after)
    ensures Justified(p, after, e)
  {
  }

  lemma ValidLivesKept(p: Plan, lives: Lives, after: Lives)
    requires ValidLives(p, lives) && after.Keys == lives.Keys && forall id | id in lives :: Blocks(lives[id], after[id])
    ensures ValidLives(p, after)
  {
    forall id | id in after
      ensures Lifecycle.Valid(after[id])
    {
      assert Blocks(lives[id], after[id]) && Lifecycle.Valid(lives[id]);
    }
  }

  /** Blocking open tasks keeps everything tracked. */
  lemma TrackedBlock(p: Plan, start: Lives, lives: Lives, after: Lives, log: seq<Dispatch>)
    requires Tracked(p, start, lives, log) && after.Keys == lives.Keys
    requires forall id | id in lives :: Blocks(lives[id], after[id])
    ensures Tracked(p, start, after, log) && Done(after) == Done(lives)
  {
    forall id | id in after
      ensures Track(start[id], after[id], OfTask(log, id))
    {
      TrackBlock(start[id], lives[id], after[id], OfTask(log, id));
    }
    DoneKept(lives, after);
    forall e | e in log
      ensures Justified(p, after, e)
    {
      JustifiedKept(p, lives, after, e);
    }
  }

  // ----- gates that never pass

  function StallOne(p: Plan, lives: Lives, wave: nat, id: string): Lives
    requires id in p.tasks && id in lives
  {
    if p.tasks[id].wave == wave && Waits(lives[id].state) && !(GatesOf(p, wave) <= p.gatesPassed)
    then lives[id := BlockLife(lives[id])] else lives
  }

  function StallPass(p: Plan, lives: Lives, wave: nat, ids: seq<string>): (r: Lives)
    requires (forall id | id in ids :: id in p.tasks) && p.tasks.Keys <= lives.Keys
    ensures r.Keys == lives.Keys
    ensures forall id | id in lives :: Blocks(lives[id], r[id])
  {
    if ids == [] then lives else StallOne(p, StallPass(p, lives, wave, ids[..|ids| - 1]), wave, ids[|ids| - 1])
  }

  lemma {:induction false} StallAppend(p: Plan, lives: Lives, wave: nat, ids: seq<string>, id: string)
    requires (forall x | x in ids + [id] :: x in p.tasks) && p.tasks.Keys <= lives.Keys
    ensures StallPass(p, lives, wave, ids + [id]) == StallOne(p, StallPass(p, lives, wave, ids), wave, id)
  {
    assert (ids + [id])[..|ids|] == ids;
  }

  // ----- nothing is left ready

  ghost predicate Quiet(p: Plan, lives: Lives, seen: set<string>, wave: nat)
    requires p.tasks.Keys <= lives.Keys
  {
    forall id | id in p.tasks && p.tasks[id].wave == wave :: !IsReady(p, lives, seen, id)
  }

  lemma QuietAfterBlock(p: Plan, lives: Lives, after: Lives, seen: set<string>, wave: nat)
    requires p.tasks.Keys <= lives.Keys && after.Keys == lives.Keys && Quiet(p, lives, seen, wave)
    requires (forall id | id in lives :: Blocks(lives[id], after[id])) && Done(after) == Done(lives)
    ensures Quiet(p, after, seen, wave)
  {
    forall id | id in p.tasks && p.tasks[id].wave == wave
      ensures !IsReady(p, after, seen, id)
    {
      assert Blocks(lives[id], after[id]) && !IsReady(p, lives, seen, id);
    }
  }

  /** Once a later wave may run, an earlier one can never be ready again. */
  lemma QuietBelow(p: Plan, lives: Lives, seen: set<string>, wave: nat, later: nat)
    requires ValidPlan(p) && p.tasks.Keys <= lives.Keys && wave < later && EarlierWavesOver(p, Done(lives), later)
    ensures Quiet(p, lives, seen, wave)
  {
  }

  /** No task of the first `n` waves is ready. */
  ghost predicate QuietUpTo(p: Plan, lives: Lives, seen: set<string>, n: nat)
    requires p.tasks.Keys <= lives.Keys && n <= |p.waves|
  {
    forall i | 0 <= i < n :: Quiet(p, lives, seen, p.waves[i])
  }

  lemma QuietUpToAfterBlock(p: Plan, lives: Lives, after: Lives, seen: set<string>, n: nat)
    requires p.tasks.Keys <= lives.Keys && after.Keys == lives.Keys && n <= |p.waves| && QuietUpTo(p, lives, seen, n)
    requires forall id | id in lives :: Blocks(lives[id], after[id])
    ensures QuietUpTo(p, after, seen, n)
  {
    DoneKept(lives, after);
    forall i | 0 <= i < n
      ensures Quiet(p, after, seen, p.waves[i])
    {
      QuietAfterBlock(p, lives, after, seen, p.waves[i]);
    }
  }

  lemma QuietNext(p: Plan, lives: Lives, seen: set<string>, n: nat)
    requires p.tasks.Keys <= lives.Keys && n < |p.waves| && QuietUpTo(p, lives, seen, n) && Quiet(p, lives, seen, p.waves[n])
    ensures QuietUpTo(p, lives, seen, n + 1)
  {
  }

  lemma QuietUpToSeen(p: Plan, lives: Lives, seen: set<string>, more: set<string>, n: nat)
    requires p.tasks.Keys <= lives.Keys && n <= |p.waves| && QuietUpTo(p, lives, seen, n) && seen <= more
    ensures QuietUpTo(p, lives, more, n)
  {
    forall i | 0 <= i < n
      ensures Quiet(p, lives, more, p.waves[i])
    {
      forall id | id in p.tasks && p.tasks[id].wave == p.waves[i]
        ensures !IsReady(p, lives, more, id)
      {
        assert !IsReady(p, lives, seen, id);
      }
    }
  }

  lemma QuietUpToDispatch(p: Plan, lives: Lives, after: Lives, seen: set<string>, n: nat)
    requires ValidPlan(p) && after.Keys == lives.Keys == p.tasks.Keys && n < |p.waves| && Done(lives) <= Done(after)
    requires EarlierWavesOver(p, Done(lives), p.waves[n])
    ensures QuietUpTo(p, after, seen, n)
  {
    assert EarlierWavesOver(p, Done(after), p.waves[n]);
    forall i | 0 <= i < n
      ensures Quiet(p, after, seen, p.waves[i])
    {
      QuietBelow(p, after, seen, p.waves[i], p.waves[n]);
    }
  }

  /** The tasks a run can still pick: what makes it end. */
  function Waiting(lives: Lives, seen: set<string>): set<string> {
    set id | id in lives && Waits(lives[id].state) && id !in seen
  }

  /** What tracking means for a task that started fresh. */
  lemma FreshTaskRuns(maxAttempts: nat, after: Life, mine: seq<nat>)
    requires Track(New(maxAttempts), after, mine)
    ensures Path(Pending, after.history, after.state) && 0 <= after.attempt <= maxAttempts
    ensures |mine| <= maxAttempts && forall i | 0 <= i < |mine| :: mine[i] == i + 1
    ensures mine != [] ==> |mine| == after.attempt
  {
    assert after.history[0..] == after.history;
  }

  /** A batch of tasks of one wave that may all run now. */
  ghost predicate ReadyBatch(p: Plan, lives: Lives, seen: set<string>, wave: nat, batch: seq<string>)
    requires p.tasks.Keys <= lives.Keys
  {
    forall id | id in batch :: id in p.tasks && p.tasks[id].wave == wave && IsReady(p, lives, seen, id)
  }

  function AsSet(ids: seq<string>): set<string> {
    set id | id in ids
  }

  // ----- a run as steps

  datatype Machine = Machine(lives: Lives, seen: set<string>, log: seq<Dispatch>)

  /** Run one task, mark a dry-run batch, or block: all a run ever does to its tasks. */
  datatype Step = RunTask(id: string) | MarkDry(ids: set<string>) | BlockAll | BlockStalled(wave: nat)

  function Perform(p: Plan, w: World, m: Machine, step: Step): (r: Machine)
    requires ValidPlan(p) && ValidLives(p, m.lives)
    ensures ValidLives(p, r.lives)
  {
    match step
    case RunTask(id) =>
      if id in p.tasks && MayDispatch(p, m.lives, id) then
        var (end, attempts) := ExecuteLife(p, w, id, m.lives[id]);
        assert Lifecycle.Valid(end) by { ExecuteTracks(p, w, id, m.lives[id]); }
        Machine(m.lives[id := end], m.seen, m.log + Entries(id, attempts, Done(m.lives)))
      else m
    case MarkDry(ids) => m.(seen := m.seen + ids)
    case BlockAll =>
      var after := BlockPass(p, m.lives, p.ids);
      assert ValidLives(p, after) by { PassIsSound(p, m.lives, p.ids); ValidLivesKept(p, m.lives, after); }
      m.(lives := after)
    case BlockStalled(wave) =>
      var after := StallPass(p, m.lives, wave, p.ids);
      assert ValidLives(p, after) by { ValidLivesKept(p, m.lives, after); }
      m.(lives := after)
  }

  function Reached(p: Plan, w: World, start: Machine, steps: seq<Step>): (r: Machine)
    requires ValidPlan(p) && ValidLives(p, start.lives)
    ensures ValidLives(p, r.lives)
  {
    if steps == [] then start else Perform(p, w, Reached(p, w, start, steps[..|steps| - 1]), steps[|steps| - 1])
  }

  lemma ReachedOne(p: Plan, w: World, start: Machine, steps: seq<Step>, step: Step)
    requires ValidPlan(p) && ValidLives(p, start.lives)
    ensures Reached(p, w, start, steps + [step]) == Perform(p, w, Reached(p, w, start, steps), step)
  {
    assert (steps + [step])[..|steps|] == steps;
  }

  lemma TrackedStep(p: Plan, w: World, start: Lives, m: Machine, step: Step)
    requires ValidPlan(p) && ValidLives(p, start) && ValidLives(p, m.lives) && Tracked(p, start, m.lives, m.log)
    ensures var n := Perform(p, w, m, step); Tracked(p, start, n.lives, n.log)
  {
    match step
    case RunTask(id) =>
      if id in p.tasks && MayDispatch(p, m.lives, id) { TrackedExecute(p, w, start, m.lives, m.log, id); }
    case MarkDry(ids) =>
    case BlockAll =>
      PassIsSound(p, m.lives, p.ids);
      TrackedBlock(p, start, m.lives, BlockPass(p, m.lives, p.ids), m.log);
    case BlockStalled(wave) =>
      TrackedBlock(p, start, m.lives, StallPass(p, m.lives, wave, p.ids), m.log);
  }

  /**
    Whatever steps a run takes: every task's history grows by a path of the transition table and its attempts stay
    within bounds, settled tasks never change, each task is dispatched by consecutive attempts, and every dispatch is
    made only when its dependencies, earlier waves and gates allow it, after the last dispatch of each dependency.
  */
  lemma {:induction false} EveryRunIsTracked(p: Plan, w: World, lives: Lives, seen: set<string>, steps: seq<Step>)
    requires ValidPlan(p) && ValidLives(p, lives)
    ensures var m := Reached(p, w, Machine(lives, seen, []), steps); Tracked(p, lives, m.lives, m.log)
    decreases |steps|
  {
    if steps == [] {
      TrackedAtStart(p, lives);
    } else {
      EveryRunIsTracked(p, w, lives, seen, steps[..|steps| - 1]);
      TrackedStep(p, w, lives, Reached(p, w, Machine(lives, seen, []), steps[..|steps| - 1]), steps[|steps| - 1]);
    }
  }

  // ----- a run as a function, for any way of computing ready tasks

  /** The tasks the plan calls ready, given those that are done, in order. */
  function ComputeReady(p: Plan, done: set<string>, ids: seq<string>): seq<string> {
    if ids == [] then []
    else
      var id := ids[|ids| - 1];
      ComputeReady(p, done, ids[..|ids| - 1]) + if id in p.tasks && PlanReady(p, done, id) then [id] else []
  }

  /** Those of one wave that the orchestrator may pick. */
  function Filter(p: Plan, m: Machine, wave: nat, ids: seq<string>): seq<string>
    requires p.tasks.Keys <= m.lives.Keys
  {
    if ids == [] then []
    else
      var id := ids[|ids| - 1];
      Filter(p, m, wave, ids[..|ids| - 1])
      + if id in p.tasks && p.tasks[id].wave == wave && Pickable(p, m.lives, m.seen, id) then [id] else []
  }

  /** What a run is given; `ready` computes ready tasks from the tasks that are done, naming each once. */
  datatype Setup = Setup(plan: Plan, world: World, ready: set<string> -> seq<string>, width: nat, dry: bool)

  function Standard(p: Plan, w: World, width: nat, dry: bool): Setup {
    Setup(p, w, (done: set<string>) => ComputeReady(p, done, p.ids), width, dry)
  }

  ghost predicate Runs(s: Setup, m: Machine) {
    ValidPlan(s.plan) && ValidLives(s.plan, m.lives) && s.width >= 1
  }

  function FirstOf(ids: seq<string>, n: nat): seq<string> {
    if |ids| <= n then ids else ids[..n]
  }

  function Batch(s: Setup, m: Machine, wave: nat): seq<string>
    requires Runs(s, m)
  {
    FirstOf(Filter(s.plan, m, wave, s.ready(Done(m.lives))), s.width)
  }

  function RunOneTask(s: Setup, m: Machine, id: string): (r: Machine)
    requires Runs(s, m)
    ensures Runs(s, r) && r.seen == m.seen
    ensures forall x | x in r.lives && Waits(r.lives[x].state) :: Waits(m.lives[x].state) && x != id
  {
    if id in s.plan.tasks && Waits(m.lives[id].state) then
      ExecuteTracks(s.plan, s.world, id, m.lives[id]);
      var (end, attempts) := ExecuteLife(s.plan, s.world, id, m.lives[id]);
      Machine(m.lives[id := end], m.seen, m.log + Entries(id, attempts, Done(m.lives)))
    else m
  }

  function RunTasks(s: Setup, m: Machine, batch: seq<string>): (r: Machine)
    requires Runs(s, m)
    ensures Runs(s, r) && r.seen == m.seen
    ensures forall x | x in r.lives && Waits(r.lives[x].state) :: Waits(m.lives[x].state) && x !in batch
  {
    if batch == [] then m else RunOneTask(s, RunTasks(s, m, batch[..|batch| - 1]), batch[|batch| - 1])
  }

  function BlockEach(s: Setup, m: Machine): (r: Machine)
    requires Runs(s, m)
    ensures Runs(s, r) && r.seen == m.seen && r.log == m.log
    ensures forall x | x in m.lives :: Blocks(m.lives[x], r.lives[x])
  {
    var after := BlockPass(s.plan, m.lives, s.plan.ids);
    PassIsSound(s.plan, m.lives, s.plan.ids);
    ValidLivesKept(s.plan, m.lives, after);
    m.(lives := after)
  }

  function BlockWave(s: Setup, m: Machine, wave: nat): (r: Machine)
    requires Runs(s, m)
    ensures Runs(s, r)
  {
    var after := StallPass(s.plan, m.lives, wave, s.plan.ids);
    ValidLivesKept(s.plan, m.lives, after);
    m.(lives := after)
  }

  function RunBatchOf(s: Setup, m: Machine, batch: seq<string>): (r: Machine)
    requires Runs(s, m)
    ensures Runs(s, r)
    ensures forall x | x in Waiting(r.lives, r.seen) :: x in Waiting(m.lives, m.seen) && x !in batch
  {
    if s.dry then m.(seen := m.seen + AsSet(batch)) else RunTasks(s, m, batch)
  }

  function Look(s: Setup, m: Machine, batch: seq<string>): (r: Machine)
    requires Runs(s, m)
    ensures Runs(s, r)
    ensures forall x | x in Waiting(r.lives, r.seen) :: x in Waiting(m.lives, m.seen) && x !in batch
  {
    var ran := RunBatchOf(s, m, batch);
    var r := BlockEach(s, ran);
    assert forall x | x in r.lives :: Blocks(ran.lives[x], r.lives[x]);
    r
  }

  lemma FilterAppend(p: Plan, m: Machine, wave: nat, ids: seq<string>, id: string)
    requires p.tasks.Keys <= m.lives.Keys
    ensures Filter(p, m, wave, ids + [id]) ==
              Filter(p, m, wave, ids)
              + if id in p.tasks && p.tasks[id].wave == wave && Pickable(p, m.lives, m.seen, id) then [id] else []
  {
    assert (ids + [id])[..|ids|] == ids;
  }

  /** What is picked from with the plan's own readiness. */
  function ReadyOf(p: Plan, m: Machine, wave: nat, ids: seq<string>): seq<string>
    requires p.tasks.Keys <= m.lives.Keys
  {
    Filter(p, m, wave, ComputeReady(p, Done(m.lives), ids))
  }

  predicate ReadyIn(p: Plan, m: Machine, wave: nat, id: string)
    requires p.tasks.Keys <= m.lives.Keys
  {
    id in p.tasks && p.tasks[id].wave == wave && IsReady(p, m.lives, m.seen, id)
  }

  lemma ReadyAppend(p: Plan, m: Machine, wave: nat, ids: seq<string>, id: string)
    requires p.tasks.Keys <= m.lives.Keys
    ensures ReadyOf(p, m, wave, ids + [id]) == ReadyOf(p, m, wave, ids) + if ReadyIn(p, m, wave, id) then [id] else []
  {
    assert (ids + [id])[..|ids|] == ids;
    FilterAppend(p, m, wave, ComputeReady(p, Done(m.lives), ids), id);
    assert ComputeReady(p, Done(m.lives), ids) + [] == ComputeReady(p, Done(m.lives), ids);
    assert ReadyOf(p, m, wave, ids) + [] == ReadyOf(p, m, wave, ids);
  }

  /** Exactly the ready tasks of the wave are there, each once. */
  lemma {:induction false} ReadyExactly(p: Plan, m: Machine, wave: nat, ids: seq<string>)
    requires p.tasks.Keys <= m.lives.Keys && Order.Distinct(ids)
    ensures Order.Distinct(ReadyOf(p, m, wave, ids))
    ensures forall id :: id in ReadyOf(p, m, wave, ids) <==> id in ids && ReadyIn(p, m, wave, id)
  {
    if ids != [] {
      var front, last := ids[..|ids| - 1], ids[|ids| - 1];
      ReadyExactly(p, m, wave, front);
      assert ids == front + [last];
      ReadyAppend(p, m, wave, front, last);
      assert last !in front;
      assert forall id :: id in ids <==> id in front || id == last;
    }
  }

  lemma {:induction false} FilterPicks(p: Plan, m: Machine, wave: nat, ids: seq<string>)
    requires p.tasks.Keys <= m.lives.Keys
    ensures forall id | id in Filter(p, m, wave, ids) :: id in p.tasks && p.tasks[id].wave == wave && Pickable(p, m.lives, m.seen, id)
  {
    if ids != [] { FilterPicks(p, m, wave, ids[..|ids| - 1]); }
  }

  /** Whatever `ready` is, a look that picks something leaves fewer tasks to pick. */
  lemma PickShrinks(s: Setup, m: Machine, wave: nat)
    requires Runs(s, m) && Batch(s, m, wave) != []
    ensures var r := Look(s, m, Batch(s, m, wave)); |Waiting(r.lives, r.seen)| < |Waiting(m.lives, m.seen)|
  {
    var batch := Batch(s, m, wave);
    var r := Look(s, m, batch);
    FilterPicks(s.plan, m, wave, s.ready(Done(m.lives)));
    assert batch[0] in Filter(s.plan, m, wave, s.ready(Done(m.lives)));
    assert Waiting(r.lives, r.seen) <= Waiting(m.lives, m.seen) - {batch[0]};
    Smaller(Waiting(r.lives, r.seen), Waiting(m.lives, m.seen) - {batch[0]});
  }

  /** Look for tasks of one wave until none is picked: this ends for every `ready`. */
  function Drain(s: Setup, m: Machine, wave: nat): (r: Machine)
    requires Runs(s, m)
    ensures Runs(s, r) && Batch(s, r, wave) == []
    decreases |Waiting(m.lives, m.seen)|
  {
    var batch := Batch(s, m, wave);
    if batch == [] then m
    else
      PickShrinks(s, m, wave);
      Drain(s, Look(s, m, batch), wave)
  }

  /** How often it looks and picks something. */
  function Looks(s: Setup, m: Machine, wave: nat): (n: nat)
    requires Runs(s, m)
    ensures n <= |Waiting(m.lives, m.seen)|
    decreases |Waiting(m.lives, m.seen)|
  {
    var batch := Batch(s, m, wave);
    if batch == [] then 0
    else
      PickShrinks(s, m, wave);
      1 + Looks(s, Look(s, m, batch), wave)
  }

  function Waves(s: Setup, m: Machine, n: nat): (r: Machine)
    requires Runs(s, m) && n <= |s.plan.waves|
    ensures Runs(s, r)
  {
    if n == 0 then m else
      var wave := s.plan.waves[n - 1];
      BlockWave(s, Drain(s, Waves(s, m, n - 1), wave), wave)
  }

  function Whole(s: Setup, m: Machine): (r: Machine)
    requires Runs(s, m)
    ensures Runs(s, r)
  {
    BlockEach(s, Waves(s, BlockEach(s, m), |s.plan.waves|))
  }

  // ----- a run that leaves a doomed task waiting

  /** a depends on b, b on c, and no agent fits c; the ids sort a, b, c and no gate is in the way. */
  ghost predicate Backward(p: Plan, a: string, b: string, c: string) {
    && ValidPlan(p) && p.ids == [a, b, c] && Distinct3(a, b, c) && {a, b, c} <= p.tasks.Keys
    && p.tasks[a].dependsOn == {b} && p.tasks[b].dependsOn == {c} && p.tasks[c].dependsOn == {}
    && Compatible(p, p.tasks[a]) && Compatible(p, p.tasks[b]) && !Compatible(p, p.tasks[c])
    && !p.tasks[b].doneInPlan && !p.tasks[c].doneInPlan
    && forall wave | wave in p.waves :: GatesOf(p, wave) <= p.gatesPassed
  }

  predicate Distinct3(a: string, b: string, c: string) {
    a != b && b != c && a != c
  }

  /** One pass in that order moves the blocking by one task. */
  lemma {:induction false} BackwardPass(p: Plan, lives: Lives, a: string, b: string, c: string)
    requires Backward(p, a, b, c) && lives.Keys == p.tasks.Keys && lives[a].state == Pending && lives[b].state == Pending
    requires lives[c].state == Pending || lives[c].state == Blocked
    ensures var after := BlockPass(p, lives, p.ids);
            after[a] == lives[a] && after[c].state == Blocked
            && if lives[c].state == Pending then after[b] == lives[b] else after[b].state == Blocked
  {
    var after := BlockPass(p, lives, p.ids);
    PassIsSound(p, lives, p.ids);
    BackwardFirst(p, lives, a, b, c);
    BackwardSecond(p, lives, a, b, c);
    BackwardThird(p, lives, a, b, c);
    PassExactly(p, lives, p.ids, a);
    PassExactly(p, lives, p.ids, b);
    PassExactly(p, lives, p.ids, c);
    assert Blocks(lives[a], after[a]) && Blocks(lives[b], after[b]) && Blocks(lives[c], after[c]);
  }

  lemma {:induction false} BackwardFirst(p: Plan, lives: Lives, a: string, b: string, c: string)
    requires Backward(p, a, b, c) && lives.Keys == p.tasks.Keys && lives[a].state == Pending && lives[b].state == Pending
    ensures !Falls(p, lives, p.ids, a)
  {
    assert p.ids[0] == a && p.ids[1] == b && p.ids[2] == c;
    forall i
      ensures !FallsAt(p, lives, p.ids, i, a)
    {
      assert !Falls(p, lives, p.ids[..0], b);
    }
  }

  lemma {:induction false} BackwardSecond(p: Plan, lives: Lives, a: string, b: string, c: string)
    requires Backward(p, a, b, c) && lives.Keys == p.tasks.Keys && lives[b].state == Pending
    requires lives[c].state == Pending || lives[c].state == Blocked
    ensures Falls(p, lives, p.ids, b) <==> lives[c].state == Blocked
  {
    assert p.ids[0] == a && p.ids[1] == b && p.ids[2] == c;
    assert Falls(p, lives, p.ids[..1], c) <==> lives[c].state == Blocked by {
      forall i
        ensures !FallsAt(p, lives, p.ids[..1], i, c)
      {
      }
    }
    assert FallsAt(p, lives, p.ids, 1, b) <==> lives[c].state == Blocked;
  }

  lemma {:induction false} BackwardThird(p: Plan, lives: Lives, a: string, b: string, c: string)
    requires Backward(p, a, b, c) && lives.Keys == p.tasks.Keys
    requires lives[c].state == Pending || lives[c].state == Blocked
    ensures Falls(p, lives, p.ids, c)
  {
    assert p.ids[2] == c;
    assert lives[c].state == Pending ==> FallsAt(p, lives, p.ids, 2, c);
  }

  lemma {:induction false} OpenGatesStallNone(p: Plan, lives: Lives, wave: nat, ids: seq<string>)
    requires (forall id | id in ids :: id in p.tasks) && p.tasks.Keys <= lives.Keys && GatesOf(p, wave) <= p.gatesPassed
    ensures StallPass(p, lives, wave, ids) == lives
  {
    if ids != [] { OpenGatesStallNone(p, lives, wave, ids[..|ids| - 1]); }
  }

  lemma SomeMember(ids: seq<string>)
    ensures ids != [] ==> exists id :: id in ids
  {
    if ids != [] { assert ids[0] in ids; }
  }

  lemma {:induction false} NothingIsPicked(s: Setup, m: Machine, wave: nat)
    requires Runs(s, m) && s == Standard(s.plan, s.world, s.width, s.dry)
    requires forall id | id in s.plan.tasks :: !IsReady(s.plan, m.lives, m.seen, id)
    ensures Batch(s, m, wave) == []
  {
    var ready := ReadyOf(s.plan, m, wave, s.plan.ids);
    ReadyExactly(s.plan, m, wave, s.plan.ids);
    SomeMember(ready);
    assert s.ready(Done(m.lives)) == ComputeReady(s.plan, Done(m.lives), s.plan.ids);
  }

  /** While nothing is ready and gates are open, the waves of a run change nothing. */
  lemma {:induction false} WavesDoNothing(s: Setup, m: Machine, n: nat)
    requires Runs(s, m) && s == Standard(s.plan, s.world, s.width, s.dry) && n <= |s.plan.waves|
    requires forall id | id in s.plan.tasks :: !IsReady(s.plan, m.lives, m.seen, id)
    requires forall wave | wave in s.plan.waves :: GatesOf(s.plan, wave) <= s.plan.gatesPassed
    ensures Waves(s, m, n) == m
  {
    if n > 0 {
      var wave := s.plan.waves[n - 1];
      WavesDoNothing(s, m, n - 1);
      NothingIsPicked(s, m, wave);
      OpenGatesStallNone(s.plan, m.lives, wave, s.plan.ids);
    }
  }

  lemma {:induction false} BackwardIsNotReady(p: Plan, lives: Lives, a: string, b: string, c: string)
    requires Backward(p, a, b, c) && lives.Keys == p.tasks.Keys
    requires lives[a].state == Pending && lives[b].state == Pending && lives[c].state == Blocked
    ensures forall id | id in p.tasks :: !IsReady(p, lives, {}, id)
  {
    forall id | id in p.tasks
      ensures !IsReady(p, lives, {}, id)
    {
      assert id in p.ids;
      assert !DependenciesOver(p, Done(lives), p.tasks[a]) by { assert b in p.tasks[a].dependsOn && !Over(p, Done(lives), b); }
      assert !DependenciesOver(p, Done(lives), p.tasks[b]) by { assert c in p.tasks[b].dependsOn && !Over(p, Done(lives), c); }
    }
  }

  /**
    Every run of such a plan, whatever its dispatcher and width, ends with the first task still pending although what it
    depends on is blocked.
  */
  lemma {:induction false} RunLeavesDoomedPending(p: Plan, w: World, width: nat, dry: bool, lives: Lives, a: string, b: string, c: string)
    requires Backward(p, a, b, c) && ValidLives(p, lives) && width >= 1
    requires lives[a].state == Pending && lives[b].state == Pending && lives[c].state == Pending
    ensures var end := Whole(Standard(p, w, width, dry), Machine(lives, {}, []));
            && end.log == [] && end.lives[a] == lives[a] && end.lives[b].state == Blocked && end.lives[c].state == Blocked
            && MustBlock(p, end.lives, a)
  {
    BackwardRun(p, w, width, dry, lives, a, b, c);
    TwoBackwardPasses(p, lives, a, b, c);
  }

  lemma {:induction false} TwoBackwardPasses(p: Plan, lives: Lives, a: string, b: string, c: string)
    requires Backward(p, a, b, c) && ValidLives(p, lives)
    requires lives[a].state == Pending && lives[b].state == Pending && lives[c].state == Pending
    ensures var end := BlockPass(p, BlockPass(p, lives, p.ids), p.ids);
            && end[a] == lives[a] && end[b].state == Blocked && end[c].state == Blocked && MustBlock(p, end, a)
  {
    BackwardPass(p, lives, a, b, c);
    BackwardPass(p, BlockPass(p, lives, p.ids), a, b, c);
    assert b in p.tasks[a].dependsOn;
  }

  /** Such a run is two passes. */
  lemma {:induction false} BackwardRun(p: Plan, w: World, width: nat, dry: bool, lives: Lives, a: string, b: string, c: string)
    requires Backward(p, a, b, c) && ValidLives(p, lives) && width >= 1
    requires lives[a].state == Pending && lives[b].state == Pending && lives[c].state == Pending
    ensures Whole(Standard(p, w, width, dry), Machine(lives, {}, [])) ==
            Machine(BlockPass(p, BlockPass(p, lives, p.ids), p.ids), {}, [])
  {
    var s, m := Standard(p, w, width, dry), Machine(lives, {}, []);
    var m1 := BlockEach(s, m);
    BackwardPass(p, lives, a, b, c);
    BackwardIsNotReady(p, m1.lives, a, b, c);
    WavesDoNothing(s, m1, |p.waves|);
  }

  function BackwardSpec(role: string, dependsOn: set<string>): Spec {
    Spec(role, None, {}, dependsOn, 0, true, false, true, false)
  }

  /** Such a plan: the only agent has the role of the first two tasks. */
  function BackwardPlan(a: string, b: string, c: string, role: string, other: string): Plan {
    Plan([a, b, c], map[a := BackwardSpec(role, {b}), b := BackwardSpec(role, {c}), c := BackwardSpec(other, {})],
         [Agent(a, role, {})], [0], map[], {})
  }

  lemma BackwardPlanIsBackward(a: string, b: string, c: string, role: string, other: string)
    requires Order.Increasing([a, b, c]) && role != other
    ensures Backward(BackwardPlan(a, b, c, role, other), a, b, c)
  {
    var p := BackwardPlan(a, b, c, role, other);
    assert p.ids[0] == a && p.ids[1] == b && p.ids[2] == c;
    assert p.agents[0] in p.agents;
  }

  // ----- a run that does not

  /** A pass makes no task doomed that was not. */
  lemma {:induction false} DoomAfterPass(p: Plan, lives: Lives, ids: seq<string>, id: string, k: nat)
    requires DependenciesKnown(p) && (forall x | x in ids :: x in p.tasks) && p.tasks.Keys <= lives.Keys
    requires Doomed(p, BlockPass(p, lives, ids), id, k)
    ensures AnyDoom(p, lives, id)
    decreases k
  {
    var after := BlockPass(p, lives, ids);
    PassIsSound(p, lives, ids);
    if after[id] == lives[id] {
      if k == 0 {
        assert Doomed(p, lives, id, 0);
      } else if Doomed(p, after, id, k - 1) {
        DoomAfterPass(p, lives, ids, id, k - 1);
      } else if !Compatible(p, p.tasks[id]) {
        assert Doomed(p, lives, id, 1);
      } else {
        var d :| d in p.tasks[id].dependsOn && Doomed(p, after, d, k - 1);
        DoomAfterPass(p, lives, ids, d, k - 1);
        var j: nat :| Doomed(p, lives, d, j);
        assert Doomed(p, lives, id, j + 1);
      }
    }
  }

  /** When order is enough, no doomed task is left open by the pass that ends a run. */
  lemma {:induction false} LastPassSettles(p: Plan, settled: Lives, id: string)
    requires ValidPlan(p) && ValidLives(p, settled) && OrderIsEnough(p) && id in p.tasks
    ensures var after := BlockPass(p, settled, p.ids); AnyDoom(p, after, id) <==> Bad(after[id].state)
  {
    var after := BlockPass(p, settled, p.ids);
    if AnyDoom(p, after, id) {
      var k: nat :| Doomed(p, after, id, k);
      DoomAfterPass(p, settled, p.ids, id, k);
      OrderedPassSettles(p, settled);
    } else {
      assert !Doomed(p, after, id, 0);
    }
  }

  /** What no longer has to be blocked after the pass that ends a run. */
  lemma {:induction false} LastPassLeaves(p: Plan, settled: Lives)
    requires ValidPlan(p) && ValidLives(p, settled)
    ensures var after := BlockPass(p, settled, p.ids);
            && (Topological(p, p.ids) ==> forall id | id in p.tasks :: !MustBlock(p, after, id))
            && (OrderIsEnough(p) ==> forall id | id in p.tasks :: AnyDoom(p, after, id) <==> Bad(after[id].state))
  {
    forall id | id in p.tasks
      ensures Topological(p, p.ids) ==> !MustBlock(p, BlockPass(p, settled, p.ids), id)
      ensures var after := BlockPass(p, settled, p.ids); OrderIsEnough(p) ==> (AnyDoom(p, after, id) <==> Bad(after[id].state))
    {
      if Topological(p, p.ids) { NothingLeftToBlock(p, settled, id); }
      if OrderIsEnough(p) { LastPassSettles(p, settled, id); }
    }
  }

  // ----- the orchestrator itself

  class FleetOrchestrator {
    const plan: Plan
    const world: World
    const maxParallel: nat
    const dryRun: bool
    var lives: Lives
    var seen: set<string>
    var log: seq<Dispatch>
    ghost var start: Machine
    ghost var steps: seq<Step>

    ghost predicate Sound()
      reads this
    {
      ValidPlan(plan) && ValidLives(plan, lives) && maxParallel >= 1
    }

    function Now(): Machine
      reads this
    {
      Machine(lives, seen, log)
    }

    ghost function Here(): Setup {
      Standard(plan, world, maxParallel, dryRun)
    }

    /** The fields are where the recorded steps lead. */
    ghost predicate Valid()
      reads this
    {
      Sound() && ValidLives(plan, start.lives) && Machine(lives, seen, log) == Reached(plan, world, start, steps)
    }

    constructor (plan: Plan, world: World, lives: Lives, maxParallel: nat, dryRun: bool)
      requires ValidPlan(plan) && ValidLives(plan, lives) && maxParallel >= 1
      ensures Valid() && this.plan == plan && this.world == world && this.lives == lives && this.dryRun == dryRun
      ensures this.maxParallel == maxParallel && seen == {} && log == []
    {
      this.plan, this.world, this.maxParallel, this.dryRun := plan, world, maxParallel, dryRun;
      this.lives, seen, log := lives, {}, [];
      start, steps := Machine(lives, {}, []), [];
    }

    ghost method Performed(step: Step)
      requires ValidPlan(plan) && ValidLives(plan, start.lives) && maxParallel >= 1
      requires Machine(lives, seen, log) == Perform(plan, world, Reached(plan, world, start, steps), step)
      modifies this`steps
      ensures Valid()
    {
      ReachedOne(plan, world, start, steps, step);
      steps := steps + [step];
    }

    method CollectReady(wave: nat) returns (ready: seq<string>)
      requires Sound()
      ensures ready == ReadyOf(plan, Now(), wave, plan.ids)
    {
      ready := [];
      var i := 0;
      while i < |plan.ids|
        invariant 0 <= i <= |plan.ids|
        invariant ready == ReadyOf(plan, Now(), wave, plan.ids[..i])
      {
        var id := plan.ids[i];
        TakeNext(plan.ids, i);
        ReadyAppend(plan, Now(), wave, plan.ids[..i], id);
        if plan.tasks[id].wave == wave && IsReady(plan, lives, seen, id) { ready := ready + [id]; }
        i := i + 1;
      }
      assert plan.ids[..i] == plan.ids;
    }

    method ReadyIds(wave: nat) returns (ready: seq<string>)
      requires Sound()
      ensures Order.Distinct(ready)
      ensures forall id :: id in ready <==> id in plan.tasks && plan.tasks[id].wave == wave && IsReady(plan, lives, seen, id)
      ensures ready == ReadyOf(plan, Now(), wave, plan.ids)
    {
      ready := CollectReady(wave);
      ReadyExactly(plan, Now(), wave, plan.ids);
    }

    /** One dispatch of a ready task: the life afterwards, and whether the task is over. */
    method DispatchOnce(id: string, ready: Life, ghost whole: (Life, seq<nat>), ghost tried: seq<nat>)
      returns (l: Life, attempt: nat, finished: bool)
      requires Left(whole, world, id, ready, tried, false)
      ensures Left(whole, world, id, l, tried + [attempt], finished)
      ensures !finished ==> l.maxAttempts - l.attempt < ready.maxAttempts - ready.attempt
      ensures l.maxAttempts >= l.attempt
    {
      ghost var rest := Attempts(world, id, ready);
      var started := DoStart(ready, true, Some(world.clock(id, ready.attempt)));
      l := started.value;
      attempt := l.attempt;
      var outcome := world.dispatch(id, attempt);
      finished := true;
      if outcome.Completes? {
        l := DoComplete(l, true).value;
        assert rest == (l, [attempt]);
      } else {
        l := DoFail(l, !outcome.timedOut).value;
        var retryable := l.retryable && outcome.matches;
        if retryable && l.attempt < l.maxAttempts {
          l := DoRetry(l).value;
          finished := false;
          assert rest.1 == [attempt] + Attempts(world, id, l).1;
          assert tried + rest.1 == (tried + [attempt]) + Attempts(world, id, l).1;
        } else {
          assert rest == (l, [attempt]);
        }
      }
    }

    /** Dispatch until the task completes or may not be retried. */
    method RunAttempts(id: string, ready: Life, done: set<string>) returns (l: Life)
      requires Lifecycle.Valid(ready) && ready.state == Ready
      modifies this`log
      ensures l == Attempts(world, id, ready).0
      ensures log == old(log) + Entries(id, Attempts(world, id, ready).1, done)
    {
      l := ready;
      ghost var whole, tried := Attempts(world, id, ready), [];
      var finished := false;
      LeftAtStart(world, id, ready);
      while !finished
        invariant Left(whole, world, id, l, tried, finished)
        invariant log == old(log) + Entries(id, tried, done)
        invariant l.maxAttempts >= l.attempt
        decreases !finished, l.maxAttempts - l.attempt
      {
        var attempt: nat;
        l, attempt, finished := DispatchOnce(id, l, whole, tried);
        log := log + [Dispatch(id, attempt, done)];
        EntriesAppend(id, tried, attempt, done);
        tried := tried + [attempt];
      }
    }

    /** Run a task that may run: make it ready if it is not, then dispatch it. */
    method RunTaskNow(id: string)
      requires Sound() && id in plan.tasks && Waits(lives[id].state)
      modifies this`lives, this`log
      ensures var (end, attempts) := Attempts(world, id, Readied(old(lives)[id]));
              && lives == old(lives)[id := end]
              && log == old(log) + Entries(id, attempts, Done(old(lives)))
    {
      var l := lives[id];
      if l.state == Pending { l := Next(l, MarkReady); }
      l := RunAttempts(id, l, Done(lives));
      lives := lives[id := l];
    }

    /** Run one waiting task to its end. */
    method Execute(id: string)
      requires Sound() && id in plan.tasks && Waits(lives[id].state)
      modifies this`lives, this`log
      ensures Sound()
      ensures var (end, attempts) := ExecuteLife(plan, world, id, old(lives)[id]);
              && lives == old(lives)[id := end]
              && log == old(log) + Entries(id, attempts, Done(old(lives)))
    {
      ExecuteKeepsValid(plan, world, lives, id);
      var t := plan.tasks[id];
      if !Compatible(plan, t) || !t.inputsAvailable || t.blockedCondition {
        lives := lives[id := BlockLife(lives[id])];
      } else {
        RunTaskNow(id);
      }
    }

    method BlockIfUnresolvable(id: string)
      requires id in plan.tasks && id in lives
      modifies this`lives
      ensures lives == BlockOne(plan, old(lives), id)
    {
      if Open(lives[id].state) {
        if !Compatible(plan, plan.tasks[id]) {
          lives := lives[id := BlockLife(lives[id])];
        } else if exists d | d in plan.tasks[id].dependsOn :: d in lives && Bad(lives[d].state) {
          lives := lives[id := BlockLife(lives[id])];
        }
      }
    }

    method BlockInOrder()
      requires Sound()
      modifies this`lives
      ensures lives == BlockPass(plan, old(lives), plan.ids)
    {
      ghost var start := lives;
      var i := 0;
      while i < |plan.ids|
        invariant 0 <= i <= |plan.ids| && lives == BlockPass(plan, start, plan.ids[..i])
      {
        TakeNext(plan.ids, i);
        PassAppend(plan, start, plan.ids[..i], plan.ids[i]);
        BlockIfUnresolvable(plan.ids[i]);
        i := i + 1;
      }
      assert plan.ids[..i] == plan.ids;
    }

    method BlockUnresolvable()
      requires Sound()
      modifies this`lives
      ensures Sound() && lives == BlockPass(plan, old(lives), plan.ids)
      ensures forall id | id in lives :: Blocks(old(lives)[id], lives[id])
    {
      BlockInOrder();
      PassIsSound(plan, old(lives), plan.ids);
      ValidLivesKept(plan, old(lives), lives);
    }

    method BlockIfStalled(wave: nat, id: string)
      requires id in plan.tasks && id in lives
      modifies this`lives
      ensures lives == StallOne(plan, old(lives), wave, id)
    {
      if plan.tasks[id].wave == wave && Waits(lives[id].state) {
        var missing := GatesOf(plan, wave) - plan.gatesPassed;
        assert missing == {} <==> GatesOf(plan, wave) <= plan.gatesPassed by {
          if missing == {} {
            forall g | g in GatesOf(plan, wave) ensures g in plan.gatesPassed { assert g !in missing; }
          }
        }
        if missing != {} { lives := lives[id := BlockLife(lives[id])]; }
      }
    }

    method StallInOrder(wave: nat)
      requires Sound()
      modifies this`lives
      ensures lives == StallPass(plan, old(lives), wave, plan.ids)
    {
      ghost var start := lives;
      var i := 0;
      while i < |plan.ids|
        invariant 0 <= i <= |plan.ids| && lives == StallPass(plan, start, wave, plan.ids[..i])
      {
        TakeNext(plan.ids, i);
        StallAppend(plan, start, wave, plan.ids[..i], plan.ids[i]);
        BlockIfStalled(wave, plan.ids[i]);
        i := i + 1;
      }
      assert plan.ids[..i] == plan.ids;
    }

    method BlockWaveStalls(wave: nat)
      requires Sound()
      modifies this`lives
      ensures Sound() && lives == StallPass(plan, old(lives), wave, plan.ids)
      ensures forall id | id in lives :: Blocks(old(lives)[id], lives[id])
      ensures Now() == BlockWave(Here(), old(Now()), wave)
    {
      StallInOrder(wave);
      ValidLivesKept(plan, old(lives), lives);
    }

    /** Run a batch of ready tasks in order. */
    method RunBatch(batch: seq<string>)
      requires Valid() && Order.Distinct(batch)
      requires forall id | id in batch :: id in plan.tasks && MayDispatch(plan, lives, id)
      modifies this`lives, this`log, this`steps
      ensures Valid() && Executed(old(lives), lives, AsSet(batch)) && seen == old(seen)
      ensures Now() == RunTasks(Here(), old(Now()), batch)
    {
      ghost var before := lives;
      var i := 0;
      while i < |batch|
        invariant 0 <= i <= |batch| && Valid()
        invariant Executed(before, lives, AsSet(batch[..i])) && Now() == RunTasks(Here(), old(Now()), batch[..i])
      {
        ghost var previous := lives;
        assert batch[..i + 1][..i] == batch[..i];
        NextDispatchable(plan, before, lives, batch, i);
        RunOne(batch[i]);
        ExecutedNext(before, previous, lives, batch, i);
        i := i + 1;
      }
      assert batch[..i] == batch;
    }

    method ExecuteReady(id: string)
      requires Sound() && id in plan.tasks && MayDispatch(plan, lives, id)
      modifies this`lives, this`log
      ensures Sound() && Executed(old(lives), lives, {id})
      ensures Now() == RunOneTask(Here(), old(Now()), id) == Perform(plan, world, old(Now()), RunTask(id))
    {
      ExecutedAlone(plan, world, lives, id);
      RunTaskIs(Here(), Now(), id);
      Execute(id);
    }

    method RunOne(id: string)
      requires Valid() && id in plan.tasks && MayDispatch(plan, lives, id)
      modifies this`lives, this`log, this`steps
      ensures Valid() && Executed(old(lives), lives, {id}) && Now() == RunOneTask(Here(), old(Now()), id)
    {
      ExecuteReady(id);
      Performed(RunTask(id));
    }

    method BlockAndRecord()
      requires Valid()
      modifies this`lives, this`steps
      ensures Valid() && lives == BlockPass(plan, old(lives), plan.ids) && Now() == BlockEach(Here(), old(Now()))
      ensures forall id | id in lives :: Blocks(old(lives)[id], lives[id])
    {
      BlockUnresolvable();
      Performed(BlockAll);
    }

    /** The first ready tasks of a wave, at most `maxParallel` of them; none exactly when nothing of it is ready. */
    method PickBatch(n: nat) returns (batch: seq<string>)
      requires Valid() && n < |plan.waves|
      ensures Order.Distinct(batch) && |batch| <= maxParallel
      ensures ReadyBatch(plan, lives, seen, plan.waves[n], batch) && (batch != [] ==> batch[0] in Waiting(lives, seen))
      ensures batch == [] ==> Quiet(plan, lives, seen, plan.waves[n])
      ensures batch == Batch(Here(), Now(), plan.waves[n])
    {
      var ready := ReadyIds(plan.waves[n]);
      batch := if |ready| <= maxParallel then ready else ready[..maxParallel];
      assert forall id :: id in batch ==> id in ready;
      if batch != [] { assert IsReady(plan, lives, seen, batch[0]); }
    }

    /** Run a batch, or mark it in a dry run. */
    method RunOrMark(n: nat, batch: seq<string>)
      requires Valid() && n < |plan.waves| && QuietUpTo(plan, lives, seen, n)
      requires batch != [] && Order.Distinct(batch) && ReadyBatch(plan, lives, seen, plan.waves[n], batch)
      modifies this`lives, this`seen, this`log, this`steps
      ensures Valid() && QuietUpTo(plan, lives, seen, n)
      ensures if dryRun then log == old(log) && lives == old(lives) && seen == old(seen) + AsSet(batch)
              else seen == old(seen) && Executed(old(lives), lives, AsSet(batch))
      ensures Now() == RunBatchOf(Here(), old(Now()), batch)
    {
      if dryRun {
        MarkBatch(n, batch);
      } else {
        assert batch[0] in batch && IsReady(plan, lives, seen, batch[0]);
        RunBatch(batch);
        QuietUpToDispatch(plan, old(lives), lives, seen, n);
      }
    }

    method MarkBatch(n: nat, batch: seq<string>)
      requires Valid() && n < |plan.waves| && QuietUpTo(plan, lives, seen, n)
      modifies this`seen, this`steps
      ensures Valid() && QuietUpTo(plan, lives, seen, n) && seen == old(seen) + AsSet(batch)
      ensures log == old(log) && lives == old(lives)
    {
      seen := seen + AsSet(batch);
      Performed(MarkDry(AsSet(batch)));
      QuietUpToSeen(plan, lives, old(seen), seen, n);
    }

    method BlockQuietly(n: nat)
      requires Valid() && n <= |plan.waves| && QuietUpTo(plan, lives, seen, n)
      modifies this`lives, this`steps
      ensures Valid() && QuietUpTo(plan, lives, seen, n) && Now() == BlockEach(Here(), old(Now()))
      ensures lives.Keys == old(lives).Keys && forall id | id in lives :: Blocks(old(lives)[id], lives[id])
    {
      BlockAndRecord();
      QuietUpToAfterBlock(plan, old(lives), lives, seen, n);
    }

    method RunPicked(n: nat, batch: seq<string>)
      requires Valid() && n < |plan.waves| && QuietUpTo(plan, lives, seen, n)
      requires batch != [] ==> batch[0] in Waiting(lives, seen)
      requires batch != [] && Order.Distinct(batch) && ReadyBatch(plan, lives, seen, plan.waves[n], batch)
      modifies this`lives, this`seen, this`log, this`steps
      ensures Valid() && QuietUpTo(plan, lives, seen, n)
      ensures |Waiting(lives, seen)| < |Waiting(old(lives), old(seen))|
      ensures if dryRun then log == old(log) else seen == old(seen)
      ensures Now() == Look(Here(), old(Now()), batch)
    {
      RunOrMark(n, batch);
      ghost var middle := lives;
      BlockQuietly(n);
      LookShrinks(old(lives), old(seen), middle, lives, seen, batch, dryRun);
    }

    /** One look at a wave: run a batch of what is ready, then block what cannot run any more. */
    method RunLook(n: nat) returns (more: bool)
      requires Valid() && n < |plan.waves| && QuietUpTo(plan, lives, seen, n)
      modifies this`lives, this`seen, this`log, this`steps
      ensures Valid() && QuietUpTo(plan, lives, seen, n)
      ensures if more then |Waiting(lives, seen)| < |Waiting(old(lives), old(seen))|
              else Quiet(plan, lives, seen, plan.waves[n])
      ensures if dryRun then log == old(log) else seen == old(seen)
      ensures more == (Batch(Here(), old(Now()), plan.waves[n]) != [])
      ensures Now() == if more then Look(Here(), old(Now()), Batch(Here(), old(Now()), plan.waves[n])) else old(Now())
    {
      var batch := PickBatch(n);
      more := batch != [];
      if more { RunPicked(n, batch); }
    }

    /** Look for ready tasks of one wave until there are none. */
    method DrainWave(n: nat)
      requires Valid() && n < |plan.waves| && QuietUpTo(plan, lives, seen, n)
      modifies this`lives, this`seen, this`log, this`steps
      ensures Valid() && QuietUpTo(plan, lives, seen, n) && Quiet(plan, lives, seen, plan.waves[n])
      ensures if dryRun then log == old(log) else seen == old(seen)
      ensures Now() == Drain(Here(), old(Now()), plan.waves[n])
    {
      var more := true;
      while more
        invariant Valid() && QuietUpTo(plan, lives, seen, n)
        invariant more || (Quiet(plan, lives, seen, plan.waves[n]) && Batch(Here(), Now(), plan.waves[n]) == [])
        invariant Drain(Here(), Now(), plan.waves[n]) == Drain(Here(), old(Now()), plan.waves[n])
        invariant if dryRun then log == old(log) else seen == old(seen)
        decreases more, |Waiting(lives, seen)|
      {
        more := RunLook(n);
      }
    }

    /** Drain one wave, then block what its gates will never admit. */
    method RunWave(n: nat)
      requires Valid() && n < |plan.waves| && QuietUpTo(plan, lives, seen, n)
      modifies this`lives, this`seen, this`log, this`steps
      ensures Valid() && QuietUpTo(plan, lives, seen, n + 1)
      ensures if dryRun then log == old(log) else seen == old(seen)
      ensures Now() == BlockWave(Here(), Drain(Here(), old(Now()), plan.waves[n]), plan.waves[n])
    {
      DrainWave(n);
      ghost var quiet := lives;
      QuietNext(plan, lives, seen, n);
      BlockStalls(n);
      QuietUpToAfterBlock(plan, quiet, lives, seen, n + 1);
    }

    method BlockStalls(n: nat)
      requires Valid() && n < |plan.waves|
      modifies this`lives, this`steps
      ensures Valid() && lives.Keys == old(lives).Keys && forall id | id in lives :: Blocks(old(lives)[id], lives[id])
      ensures Now() == BlockWave(Here(), old(Now()), plan.waves[n])
    {
      BlockWaveStalls(plan.waves[n]);
      Performed(BlockStalled(plan.waves[n]));
    }

    /** All waves in order. */
    method RunWaves()
      requires Valid()
      modifies this`lives, this`seen, this`log, this`steps
      ensures Valid() && QuietUpTo(plan, lives, seen, |plan.waves|)
      ensures Now() == Waves(Here(), old(Now()), |plan.waves|)
      ensures if dryRun then log == old(log) else seen == old(seen)
    {
      var n := 0;
      while n < |plan.waves|
        invariant 0 <= n <= |plan.waves|
        invariant Valid() && QuietUpTo(plan, lives, seen, n)
        invariant Now() == Waves(Here(), old(Now()), n)
        invariant if dryRun then log == old(log) else seen == old(seen)
      {
        RunWave(n);
        n := n + 1;
      }
    }

    /** The pass that ends a run. */
    method LastPass()
      requires Valid() && QuietUpTo(plan, lives, seen, |plan.waves|)
      modifies this`lives, this`steps
      ensures Valid() && Now() == BlockEach(Here(), old(Now()))
      ensures forall id | id in plan.tasks :: !IsReady(plan, lives, seen, id)
      ensures Topological(plan, plan.ids) ==> forall id | id in plan.tasks :: !MustBlock(plan, lives, id)
      ensures OrderIsEnough(plan) ==> forall id | id in plan.tasks :: AnyDoom(plan, lives, id) <==> Bad(lives[id].state)
    {
      BlockQuietly(|plan.waves|);
      QuietEverywhere(plan, lives, seen);
      LastPassLeaves(plan, old(lives));
    }

    /**
      A whole run ends, as `Whole` says.  It is a run of the steps above from the lives it found, when it has ended
      nothing is ready, and if the ids sort in dependency order, or their order is enough, nothing is left to block.
    */
    method Run()
      requires Sound()
      modifies this
      ensures Valid() && start == Machine(old(lives), old(seen), [])
      ensures Now() == Whole(Here(), Machine(old(lives), old(seen), []))
      ensures Tracked(plan, old(lives), lives, log)
      ensures forall id | id in plan.tasks :: !IsReady(plan, lives, seen, id)
      ensures Topological(plan, plan.ids) ==> forall id | id in plan.tasks :: !MustBlock(plan, lives, id)
      ensures OrderIsEnough(plan) ==> forall id | id in plan.tasks :: AnyDoom(plan, lives, id) <==> Bad(lives[id].state)
      ensures if dryRun then log == [] else seen == old(seen)
    {
      log := [];
      start, steps := Machine(lives, seen, []), [];
      BlockAndRecord();
      RunWaves();
      LastPass();
      EveryRunIsTracked(plan, world, start.lives, start.seen, steps);
    }
  }

  /** Running a task that may be dispatched is the step of the same name. */
  lemma RunTaskIs(s: Setup, m: Machine, id: string)
    requires Runs(s, m) && id in s.plan.tasks && MayDispatch(s.plan, m.lives, id)
    ensures Perform(s.plan, s.world, m, RunTask(id)) == RunOneTask(s, m, id)
    ensures var (end, attempts) := ExecuteLife(s.plan, s.world, id, m.lives[id]);
            RunOneTask(s, m, id) == Machine(m.lives[id := end], m.seen, m.log + Entries(id, attempts, Done(m.lives)))
  {
  }

  lemma ExecuteKeepsValid(p: Plan, w: World, lives: Lives, id: string)
    requires ValidLives(p, lives) && id in p.tasks && Waits(lives[id].state)
    ensures ValidLives(p, lives[id := ExecuteLife(p, w, id, lives[id]).0])
  {
    ExecuteTracks(p, w, id, lives[id]);
  }

  lemma ExecutedAlone(p: Plan, w: World, lives: Lives, id: string)
    requires ValidLives(p, lives) && id in p.tasks && Waits(lives[id].state)
    ensures Executed(lives, lives[id := ExecuteLife(p, w, id, lives[id]).0], {id})
  {
    ExecuteTracks(p, w, id, lives[id]);
    DoneGrows(lives, id, ExecuteLife(p, w, id, lives[id]).0);
  }

  lemma TakeNext(ids: seq<string>, i: nat)
    requires i < |ids|
    ensures ids[..i + 1] == ids[..i] + [ids[i]]
  {
  }

  lemma TrackedAtStart(p: Plan, start: Lives)
    requires ValidLives(p, start)
    ensures Tracked(p, start, start, [])
  {
  }

  /** The tasks in `ids` have run to their ends and no other task has changed. */
  ghost predicate Executed(before: Lives, after: Lives, ids: set<string>) {
    && before.Keys == after.Keys && Done(before) <= Done(after)
    && (forall id | id in after && id in ids :: !Waits(after[id].state))
    && (forall id | id in after && id !in ids :: after[id] == before[id])
  }

  lemma ExecutedMore(before: Lives, middle: Lives, after: Lives, ids: set<string>, id: string)
    requires Executed(before, middle, ids) && Executed(middle, after, {id})
    ensures Executed(before, after, ids + {id})
  {
  }

  lemma ExecutedNext(before: Lives, middle: Lives, after: Lives, batch: seq<string>, i: nat)
    requires i < |batch| && Executed(before, middle, AsSet(batch[..i])) && Executed(middle, after, {batch[i]})
    ensures Executed(before, after, AsSet(batch[..i + 1]))
  {
    assert AsSet(batch[..i + 1]) == AsSet(batch[..i]) + {batch[i]};
    ExecutedMore(before, middle, after, AsSet(batch[..i]), batch[i]);
  }

  lemma NextDispatchable(p: Plan, before: Lives, lives: Lives, batch: seq<string>, i: nat)
    requires i < |batch| && Order.Distinct(batch) && before.Keys == p.tasks.Keys
    requires forall id | id in batch :: id in p.tasks && MayDispatch(p, before, id)
    requires Executed(before, lives, AsSet(batch[..i]))
    ensures batch[i] in p.tasks && batch[i] in lives && MayDispatch(p, lives, batch[i])
  {
    assert batch[i] !in batch[..i];
    StillDispatchable(p, before, lives, batch[i]);
  }

  lemma WaitsBefore(before: Lives, middle: Lives, after: Lives, batch: seq<string>, dryRun: bool)
    requires if dryRun then middle == before else Executed(before, middle, AsSet(batch))
    requires after.Keys == middle.Keys && forall id | id in middle :: Blocks(middle[id], after[id])
    ensures forall id | id in after && Waits(after[id].state) :: Waits(before[id].state) && (dryRun || id !in batch)
  {
    forall id | id in after && Waits(after[id].state)
      ensures Waits(before[id].state) && (dryRun || id !in batch)
    {
      assert Blocks(middle[id], after[id]);
    }
  }

  lemma StillDispatchable(p: Plan, lives: Lives, after: Lives, id: string)
    requires id in p.tasks && id in lives && id in after && MayDispatch(p, lives, id)
    requires after[id] == lives[id] && Done(lives) <= Done(after)
    ensures MayDispatch(p, after, id)
  {
  }

  /** A look that ran or marked a batch leaves fewer tasks to pick. */
  lemma LookShrinks(before: Lives, seenBefore: set<string>, middle: Lives, after: Lives, seen: set<string>, batch: seq<string>, dryRun: bool)
    requires batch != [] && batch[0] in Waiting(before, seenBefore) && before.Keys == middle.Keys == after.Keys
    requires if dryRun then middle == before && seen == seenBefore + AsSet(batch)
             else seen == seenBefore && Executed(before, middle, AsSet(batch))
    requires forall id | id in middle :: Blocks(middle[id], after[id])
    ensures |Waiting(after, seen)| < |Waiting(before, seenBefore)|
  {
    assert batch[0] in AsSet(batch);
    WaitsBefore(before, middle, after, batch, dryRun);
    WaitingShrinks(before, seenBefore, after, seen, batch[0]);
  }

  lemma WaitingShrinks(before: Lives, seenBefore: set<string>, after: Lives, seen: set<string>, id: string)
    requires before.Keys == after.Keys && seenBefore <= seen && id in Waiting(before, seenBefore) && id !in Waiting(after, seen)
    requires forall x | x in after && Waits(after[x].state) :: Waits(before[x].state)
    ensures |Waiting(after, seen)| < |Waiting(before, seenBefore)|
  {
    assert Waiting(after, seen) <= Waiting(before, seenBefore) - {id};
    Smaller(Waiting(after, seen), Waiting(before, seenBefore) - {id});
  }

  lemma {:induction false} Smaller(a: set<string>, b: set<string>)
    requires a <= b
    ensures |a| <= |b|
  {
    if a != {} {
      var x :| x in a;
      Smaller(a - {x}, b - {x});
    }
  }

  lemma QuietEverywhere(p: Plan, lives: Lives, seen: set<string>)
    requires ValidPlan(p) && p.tasks.Keys <= lives.Keys && QuietUpTo(p, lives, seen, |p.waves|)
    ensures forall id | id in p.tasks :: !IsReady(p, lives, seen, id)
  {
    forall id | id in p.tasks
      ensures !IsReady(p, lives, seen, id)
    {
      var i :| 0 <= i < |p.waves| && p.waves[i] == p.tasks[id].wave;
      assert Quiet(p, lives, seen, p.waves[i]);
    }
  }
}
