/**
  The canonical form of a plan: alias spellings unified, runtime and sensitive keys dropped, set-like lists sorted,
  text cleaned.

  Which labels are sensitive and how text is cleaned are parameters, since they rest on regular expressions.
*/
module Contracts {
  import opened Wrappers
  import opened Json
  import Gates
  import Order
  import Permutations

  const V2_SCHEMA_VERSION := "pd-fleet-plan:v2"
  const SCHEMA_KEY := "schema_version"

  const RUNTIME_KEYS := {
    "timestamp", "timestamps", "created_at", "updated_at", "started_at", "finished_at", "completed_at", "heartbeat_at",
    "expires_at", "lease_expiry", "runtime", "wall_time", "monotonic_time"}

  const PLAN_FIELDS := {
    "schema_version", "plan_hash", "generation", "run_id", "owner", "status", "waves", "tasks", "dependencies", "gates",
    "agents", "capabilities", "inputs", "constraints", "context", "commands", "validation_commands", "max_parallel",
    "checkpoints", "leases", "attempts", "reports", "events", "event_sequence", "checkpoint_id", "lease_id", "audit",
    "metrics", "project", "name", "description", "path", "source", "cwd", "task_id", "agent_id", "role"}

  function Alias(key: string): string {
    if key == "schemaVersion" then SCHEMA_KEY
    else if key == "planHash" then "plan_hash"
    else if key == "runId" then "run_id"
    else if key == "taskId" then "task_id"
    else if key == "agentId" then "agent_id"
    else if key == "maxParallel" then "max_parallel"
    else if key == "eventSequence" then "event_sequence"
    else if key == "checkpointId" then "checkpoint_id"
    else if key == "leaseId" then "lease_id"
    else key
  }

  datatype Policy = Policy(clean: string -> Json, sensitive: string -> bool)

  datatype Error = NotAnObject | InvalidKey | ConflictingAliases | UnknownField | UnsupportedSchema

  /** Cleaning text gives text that cleaning leaves alone, or null. */
  ghost predicate Sane(p: Policy) {
    && (forall s :: p.clean(s) == Null || (p.clean(s).Str? && p.clean(p.clean(s).text) == p.clean(s)))
    && p.clean(V2_SCHEMA_VERSION) == Str(V2_SCHEMA_VERSION)
    && !p.sensitive(SCHEMA_KEY)
  }

  predicate Dropped(p: Policy, key: string) {
    key in RUNTIME_KEYS || p.sensitive(key)
  }

  predicate SetLike(key: string) {
    key == "capabilities" || key == "dependencies"
  }

  type Pairs = seq<(string, Json)>

  // ----- aliases

  function IndexOf(pairs: Pairs, key: string): (r: Option<nat>)
    ensures r.Some? ==> r.value < |pairs| && pairs[r.value].0 == key
    ensures r.None? ==> forall i | 0 <= i < |pairs| :: pairs[i].0 != key
  {
    if pairs == [] then None
    else if pairs[|pairs| - 1].0 == key then Some(|pairs| - 1)
    else IndexOf(pairs[..|pairs| - 1], key)
  }

  /** Add one pair to those already unified. */
  function AddAlias(done: Pairs, raw: string, item: Json): Result<Pairs, Error> {
    var at := IndexOf(done, Alias(raw));
    if raw == [] then Err(InvalidKey)
    else if at.None? then Ok(done + [(Alias(raw), item)])
    else if DumpSorted(done[at.value].1) != DumpSorted(item) then Err(ConflictingAliases)
    else Ok(done)
  }

  /** One spelling per key, the first value given for it; two different values for one key are an error. */
  function NormalizedAliases(pairs: Pairs): Result<Pairs, Error> {
    if pairs == [] then Ok([])
    else
      match NormalizedAliases(pairs[..|pairs| - 1])
      case Err(e) => Err(e)
      case Ok(done) => AddAlias(done, pairs[|pairs| - 1].0, pairs[|pairs| - 1].1)
  }

  /** The i-th pair is the first one with its canonical key. */
  predicate IsFirst(pairs: Pairs, i: nat)
    requires i < |pairs|
  {
    forall h | 0 <= h < i :: Alias(pairs[h].0) != Alias(pairs[i].0)
  }

  predicate Shown(p: Policy, pairs: Pairs, i: nat)
    requires i < |pairs|
  {
    IsFirst(pairs, i) && !Dropped(p, Alias(pairs[i].0))
  }

  predicate HasSchema(pairs: Pairs) {
    exists i | 0 <= i < |pairs| :: Alias(pairs[i].0) == SCHEMA_KEY
  }

  // ----- the canonical value

  function SortIfSetLike(key: string, v: Json): Json {
    if SetLike(key) && v.List? then List(Order.Sort(v.items, DumpSorted)) else v
  }

  function Canonical(p: Policy, v: Json, root: bool): Result<Json, Error>
    decreases v, Width(v) + 2
  {
    match v
    case Str(s) => Ok(p.clean(s))
    case List(_) =>
      (match CanonicalItems(p, v, |v.items|)
       case Err(e) => Err(e)
       case Ok(items) => Ok(List(items)))
    case Obj(pairs) =>
      if NormalizedAliases(pairs).Err? then Err(NormalizedAliases(pairs).error)
      else
        (match CanonicalPairs(p, v, root, |v.pairs|)
         case Err(e) => Err(e)
         case Ok(done) => Ok(Obj(done)))
    case _ => Ok(v)
  }

  function CanonicalItems(p: Policy, v: Json, n: nat): Result<seq<Json>, Error>
    requires v.List? && n <= |v.items|
    decreases v, n + 1
  {
    if n == 0 then Ok([])
    else
      match CanonicalItems(p, v, n - 1)
      case Err(e) => Err(e)
      case Ok(done) =>
        match Canonical(p, v.items[n - 1], false)
        case Err(e) => Err(e)
        case Ok(x) => Ok(done + [x])
  }

  function CanonicalPairs(p: Policy, v: Json, root: bool, n: nat): Result<Pairs, Error>
    requires v.Obj? && n <= |v.pairs|
    decreases v, n + 1
  {
    if n == 0 then Ok([])
    else
      match CanonicalPairs(p, v, root, n - 1)
      case Err(e) => Err(e)
      case Ok(done) =>
        var key := Alias(v.pairs[n - 1].0);
        if !Shown(p, v.pairs, n - 1) then Ok(done)
        else if root && HasSchema(v.pairs) && key !in PLAN_FIELDS then Err(UnknownField)
        else
          match Canonical(p, v.pairs[n - 1].1, false)
          case Err(e) => Err(e)
          case Ok(x) => Ok(done + [(key, SortIfSetLike(key, x))])
  }

  function Canonicalize(p: Policy, v: Json): Result<Json, Error> {
    if !v.Obj? then Err(NotAnObject)
    else
      match NormalizedAliases(v.pairs)
      case Err(e) => Err(e)
      case Ok(pairs) =>
        var at := IndexOf(pairs, SCHEMA_KEY);
        if at.None? || pairs[at.value].1 != Str(V2_SCHEMA_VERSION) then Err(UnsupportedSchema)
        else Canonical(p, Obj(pairs), true)
  }

  /** What the plan hash is taken of. */
  function CanonicalBytes(p: Policy, v: Json): Result<string, Error> {
    match Canonicalize(p, v)
    case Err(e) => Err(e)
    case Ok(c) => Ok(DumpSorted(c))
  }

  // ----- the same, without errors

  function Clean(p: Policy, v: Json): Json
    decreases v, Width(v) + 2
  {
    match v
    case Str(s) => p.clean(s)
    case List(_) => List(CleanItems(p, v))
    case Obj(_) => Obj(CleanPairs(p, v, |v.pairs|))
    case _ => v
  }

  function CleanItems(p: Policy, v: Json): (r: seq<Json>)
    requires v.List?
    ensures |r| == |v.items| && forall i | 0 <= i < |r| :: r[i] == Clean(p, v.items[i])
    decreases v, 0
  {
    seq(|v.items|, i requires 0 <= i < |v.items| => Clean(p, v.items[i]))
  }

  function CleanPairs(p: Policy, v: Json, n: nat): Pairs
    requires v.Obj? && n <= |v.pairs|
    decreases v, n + 1
  {
    if n == 0 then []
    else if !Shown(p, v.pairs, n - 1) then CleanPairs(p, v, n - 1)
    else
      var key := Alias(v.pairs[n - 1].0);
      CleanPairs(p, v, n - 1) + [(key, SortIfSetLike(key, Clean(p, v.pairs[n - 1].1)))]
  }

  ghost predicate AliasesAgree(pairs: Pairs) {
    && (forall i | 0 <= i < |pairs| :: pairs[i].0 != [])
    && (forall i, j | 0 <= i < j < |pairs| && Alias(pairs[i].0) == Alias(pairs[j].0) ::
          DumpSorted(pairs[i].1) == DumpSorted(pairs[j].1))
  }

  /** What is accepted: non-empty keys, agreeing spellings, and at a root with a schema only known fields. */
  ghost predicate Acceptable(p: Policy, v: Json, root: bool)
    decreases v, 0
  {
    match v
    case List(xs) => forall i | 0 <= i < |xs| :: Acceptable(p, xs[i], false)
    case Obj(pairs) =>
      && AliasesAgree(pairs)
      && forall i | 0 <= i < |pairs| :: PairAcceptable(p, pairs, root, i)
    case _ => true
  }

  ghost predicate PairAcceptable(p: Policy, pairs: Pairs, root: bool, i: nat)
    requires i < |pairs|
    decreases pairs[i].1, 1
  {
    Shown(p, pairs, i) ==>
      Acceptable(p, pairs[i].1, false) && (root && HasSchema(pairs) ==> Alias(pairs[i].0) in PLAN_FIELDS)
  }

  // ----- when a plan is accepted

  /** `done` holds the first value of every canonical key of `pairs`, each key once. */
  ghost predicate Unifies(pairs: Pairs, done: Pairs) {
    && DistinctKeys(done)
    && (forall i | 0 <= i < |pairs| :: Covered(pairs[i], done))
    && (forall h | 0 <= h < |done| :: ComesFrom(done[h], pairs))
  }

  ghost predicate Covered(pair: (string, Json), done: Pairs) {
    exists h :: 0 <= h < |done| && done[h].0 == Alias(pair.0) && DumpSorted(done[h].1) == DumpSorted(pair.1)
  }

  ghost predicate ComesFrom(pair: (string, Json), pairs: Pairs) {
    exists i :: 0 <= i < |pairs| && IsFirst(pairs, i) && Alias(pairs[i].0) == pair.0 && pairs[i].1 == pair.1
  }

  lemma FrontAgrees(pairs: Pairs)
    requires pairs != []
    ensures AliasesAgree(pairs) ==> AliasesAgree(pairs[..|pairs| - 1])
  {
  }

  lemma ComesFromLonger(pair: (string, Json), pairs: Pairs, more: (string, Json))
    requires ComesFrom(pair, pairs)
    ensures ComesFrom(pair, pairs + [more])
  {
    var i :| 0 <= i < |pairs| && IsFirst(pairs, i) && Alias(pairs[i].0) == pair.0 && pairs[i].1 == pair.1;
    var all := pairs + [more];
    assert IsFirst(all, i) && all[i] == pairs[i];
  }

  lemma CoveredLonger(pair: (string, Json), done: Pairs, more: (string, Json))
    requires Covered(pair, done)
    ensures Covered(pair, done + [more])
  {
    var h :| 0 <= h < |done| && done[h].0 == Alias(pair.0) && DumpSorted(done[h].1) == DumpSorted(pair.1);
    assert (done + [more])[h] == done[h];
  }

  lemma UnifiesNew(front: Pairs, done: Pairs, last: (string, Json))
    requires Unifies(front, done) && IndexOf(done, Alias(last.0)).None?
    ensures Unifies(front + [last], done + [(Alias(last.0), last.1)])
  {
    var pairs, next := front + [last], done + [(Alias(last.0), last.1)];
    forall i | 0 <= i < |pairs|
      ensures Covered(pairs[i], next)
    {
      if i < |front| { CoveredLonger(front[i], done, (Alias(last.0), last.1)); } else { assert next[|done|].0 == Alias(last.0); }
    }
    forall h | 0 <= h < |next|
      ensures ComesFrom(next[h], pairs)
    {
      if h < |done| {
        ComesFromLonger(done[h], front, last);
      } else {
        assert IsFirst(pairs, |front|) by {
          forall g | 0 <= g < |front|
            ensures Alias(pairs[g].0) != Alias(last.0)
          {
            assert Covered(front[g], done);
          }
        }
      }
    }
  }

  lemma UnifiesOld(front: Pairs, done: Pairs, last: (string, Json), at: nat)
    requires Unifies(front, done) && at < |done| && done[at].0 == Alias(last.0)
    requires DumpSorted(done[at].1) == DumpSorted(last.1)
    ensures Unifies(front + [last], done)
  {
    var pairs := front + [last];
    forall i | 0 <= i < |pairs|
      ensures Covered(pairs[i], done)
    {
      if i < |front| { assert Covered(front[i], done); } else { assert done[at].0 == Alias(pairs[i].0); }
    }
    forall h | 0 <= h < |done|
      ensures ComesFrom(done[h], pairs)
    {
      ComesFromLonger(done[h], front, last);
    }
  }

  ghost predicate LastAgrees(front: Pairs, last: (string, Json)) {
    forall g | 0 <= g < |front| && Alias(front[g].0) == Alias(last.0) :: DumpSorted(front[g].1) == DumpSorted(last.1)
  }

  lemma AgreeAppend(front: Pairs, last: (string, Json))
    requires AliasesAgree(front) && last.0 != []
    ensures AliasesAgree(front + [last]) <==> LastAgrees(front, last)
  {
    var pairs := front + [last];
    assert pairs[|front|] == last && forall i | 0 <= i < |front| :: pairs[i] == front[i];
    if AliasesAgree(pairs) {
      forall g | 0 <= g < |front| && Alias(front[g].0) == Alias(last.0)
        ensures DumpSorted(front[g].1) == DumpSorted(last.1)
      {
        assert Alias(pairs[g].0) == Alias(pairs[|front|].0);
      }
    }
  }

  /** Agreeing with the kept value is agreeing with every earlier pair of that key. */
  lemma ConflictExactly(front: Pairs, done: Pairs, last: (string, Json))
    requires Unifies(front, done)
    ensures var at := IndexOf(done, Alias(last.0));
            LastAgrees(front, last) <==> at.None? || DumpSorted(done[at.value].1) == DumpSorted(last.1)
  {
    var at := IndexOf(done, Alias(last.0));
    if at.Some? {
      assert ComesFrom(done[at.value], front);
      var i :| 0 <= i < |front| && IsFirst(front, i) && Alias(front[i].0) == done[at.value].0 && front[i].1 == done[at.value].1;
    }
    if at.None? || DumpSorted(done[at.value].1) == DumpSorted(last.1) {
      forall g | 0 <= g < |front| && Alias(front[g].0) == Alias(last.0)
        ensures DumpSorted(front[g].1) == DumpSorted(last.1)
      {
        assert Covered(front[g], done);
      }
    }
  }

  /** Aliases can be unified exactly when keys are non-empty and all spellings of a key give the same value. */
  lemma {:induction false} AliasesExactly(pairs: Pairs)
    ensures NormalizedAliases(pairs).Ok? <==> AliasesAgree(pairs)
    ensures NormalizedAliases(pairs).Ok? ==> Unifies(pairs, NormalizedAliases(pairs).value)
  {
    if pairs != [] {
      var front, last := pairs[..|pairs| - 1], pairs[|pairs| - 1];
      AliasesExactly(front);
      FrontAgrees(pairs);
      assert pairs == front + [last];
      if NormalizedAliases(front).Ok? && last.0 != [] {
        var done := NormalizedAliases(front).value;
        AgreeAppend(front, last);
        ConflictExactly(front, done, last);
        var at := IndexOf(done, Alias(last.0));
        if at.None? {
          UnifiesNew(front, done, last);
        } else if DumpSorted(done[at.value].1) == DumpSorted(last.1) {
          UnifiesOld(front, done, last, at.value);
        }
      }
    }
  }

  lemma {:induction false} ItemsExactly(p: Policy, v: Json, n: nat)
    requires v.List? && n <= |v.items|
    ensures CanonicalItems(p, v, n).Ok? <==> forall i | 0 <= i < n :: Acceptable(p, v.items[i], false)
    ensures CanonicalItems(p, v, n).Ok? ==> CanonicalItems(p, v, n).value == CleanItems(p, v)[..n]
    decreases v, n + 1
  {
    if n > 0 {
      ItemsExactly(p, v, n - 1);
      CanonicalExactly(p, v.items[n - 1], false);
    }
  }

  lemma PairsStep(p: Policy, v: Json, root: bool, n: nat)
    requires v.Obj? && 0 < n <= |v.pairs|
    requires var x := v.pairs[n - 1].1;
             && (Canonical(p, x, false).Ok? <==> Acceptable(p, x, false))
             && (Canonical(p, x, false).Ok? ==> Canonical(p, x, false).value == Clean(p, x))
    requires CanonicalPairs(p, v, root, n - 1).Ok? ==> CanonicalPairs(p, v, root, n - 1).value == CleanPairs(p, v, n - 1)
    ensures CanonicalPairs(p, v, root, n).Ok? <==>
              CanonicalPairs(p, v, root, n - 1).Ok? && PairAcceptable(p, v.pairs, root, n - 1)
    ensures CanonicalPairs(p, v, root, n).Ok? ==> CanonicalPairs(p, v, root, n).value == CleanPairs(p, v, n)
  {
  }

  ghost predicate PairsAcceptable(p: Policy, pairs: Pairs, root: bool, n: nat)
    requires n <= |pairs|
  {
    forall i | 0 <= i < n :: PairAcceptable(p, pairs, root, i)
  }

  lemma {:induction false} PairsExactly(p: Policy, v: Json, root: bool, n: nat)
    requires v.Obj? && n <= |v.pairs|
    ensures CanonicalPairs(p, v, root, n).Ok? <==> PairsAcceptable(p, v.pairs, root, n)
    ensures CanonicalPairs(p, v, root, n).Ok? ==> CanonicalPairs(p, v, root, n).value == CleanPairs(p, v, n)
    decreases v, n + 1
  {
    if n == 0 {
      NoPairs(p, v, root);
    } else {
      var x := v.pairs[n - 1].1;
      PairsExactly(p, v, root, n - 1);
      CanonicalExactly(p, x, false);
      PairsStep(p, v, root, n);
      PairsAcceptableStep(p, v.pairs, root, n);
    }
  }

  lemma NoPairs(p: Policy, v: Json, root: bool)
    requires v.Obj?
    ensures CanonicalPairs(p, v, root, 0) == Ok([]) && CleanPairs(p, v, 0) == [] && PairsAcceptable(p, v.pairs, root, 0)
  {
  }

  lemma PairsAcceptableStep(p: Policy, pairs: Pairs, root: bool, n: nat)
    requires 0 < n <= |pairs|
    ensures PairsAcceptable(p, pairs, root, n) <==>
              PairsAcceptable(p, pairs, root, n - 1) && PairAcceptable(p, pairs, root, n - 1)
  {
  }

  lemma ObjectExactly(p: Policy, v: Json, root: bool)
    requires v.Obj?
    requires CanonicalPairs(p, v, root, |v.pairs|).Ok? <==> PairsAcceptable(p, v.pairs, root, |v.pairs|)
    requires CanonicalPairs(p, v, root, |v.pairs|).Ok? ==>
               CanonicalPairs(p, v, root, |v.pairs|).value == CleanPairs(p, v, |v.pairs|)
    ensures Canonical(p, v, root).Ok? <==> Acceptable(p, v, root)
    ensures Canonical(p, v, root).Ok? ==> Canonical(p, v, root).value == Clean(p, v)
  {
    AliasesExactly(v.pairs);
    assert Acceptable(p, v, root) <==> AliasesAgree(v.pairs) && PairsAcceptable(p, v.pairs, root, |v.pairs|);
  }

  /** The canonical value exists exactly for what is acceptable, and then it is the cleaned value. */
  lemma {:induction false} CanonicalExactly(p: Policy, v: Json, root: bool)
    ensures Canonical(p, v, root).Ok? <==> Acceptable(p, v, root)
    ensures Canonical(p, v, root).Ok? ==> Canonical(p, v, root).value == Clean(p, v)
    decreases v, Width(v) + 2
  {
    if v.List? {
      ItemsExactly(p, v, |v.items|);
      assert CleanItems(p, v)[..|v.items|] == CleanItems(p, v);
    } else if v.Obj? {
      PairsExactly(p, v, root, |v.pairs|);
      ObjectExactly(p, v, root);
    }
  }

  // ----- unifying aliases twice

  lemma AliasFixed(key: string)
    ensures Alias(Alias(key)) == Alias(key)
    ensures key != [] ==> Alias(key) != []
  {
  }

  lemma SchemaKeyStays()
    ensures Alias(SCHEMA_KEY) == SCHEMA_KEY && SCHEMA_KEY !in RUNTIME_KEYS && SCHEMA_KEY in PLAN_FIELDS && !SetLike(SCHEMA_KEY)
  {
  }

  lemma {:induction false} CleanDependsOnPrefix(p: Policy, a: Pairs, b: Pairs, n: nat)
    requires n <= |a| && n <= |b| && a[..n] == b[..n]
    ensures CleanPairs(p, Obj(a), n) == CleanPairs(p, Obj(b), n)
  {
    if n > 0 {
      assert a[..n - 1] == a[..n][..n - 1] == b[..n][..n - 1] == b[..n - 1];
      CleanDependsOnPrefix(p, a, b, n - 1);
      assert forall i | 0 <= i < n :: a[i] == a[..n][i] == b[..n][i] == b[i];
    }
  }

  /** Keys that are already canonical, each once. */
  ghost predicate Unified(pairs: Pairs) {
    DistinctKeys(pairs) && forall i | 0 <= i < |pairs| :: Alias(pairs[i].0) == pairs[i].0
  }

  lemma UnifiedIsFirst(pairs: Pairs, i: nat)
    requires Unified(pairs) && i < |pairs|
    ensures IsFirst(pairs, i)
  {
  }

  lemma UnifiesIsUnified(pairs: Pairs, done: Pairs)
    requires Unifies(pairs, done)
    ensures Unified(done)
  {
    forall h | 0 <= h < |done|
      ensures Alias(done[h].0) == done[h].0
    {
      assert ComesFrom(done[h], pairs);
      var i :| 0 <= i < |pairs| && IsFirst(pairs, i) && Alias(pairs[i].0) == done[h].0 && pairs[i].1 == done[h].1;
      AliasFixed(pairs[i].0);
    }
  }

  /** The last pair is the first of its key exactly when the key is not unified yet. */
  lemma LastIsFirst(front: Pairs, done: Pairs, last: (string, Json))
    requires Unifies(front, done)
    ensures IsFirst(front + [last], |front|) <==> IndexOf(done, Alias(last.0)).None?
  {
    var pairs, at := front + [last], IndexOf(done, Alias(last.0));
    assert pairs[|front|] == last && forall i | 0 <= i < |front| :: pairs[i] == front[i];
    if at.Some? {
      assert ComesFrom(done[at.value], front);
      var i :| 0 <= i < |front| && IsFirst(front, i) && Alias(front[i].0) == done[at.value].0 && front[i].1 == done[at.value].1;
      assert Alias(pairs[i].0) == Alias(pairs[|front|].0);
    } else {
      forall g | 0 <= g < |front|
        ensures Alias(pairs[g].0) != Alias(last.0)
      {
        assert Covered(front[g], done);
      }
    }
  }

  function CleanPair(p: Policy, x: (string, Json)): (string, Json) {
    (Alias(x.0), SortIfSetLike(Alias(x.0), Clean(p, x.1)))
  }

  lemma CleanAppend(p: Policy, a: Pairs, x: (string, Json))
    ensures CleanPairs(p, Obj(a + [x]), |a| + 1) ==
            if IsFirst(a + [x], |a|) && !Dropped(p, Alias(x.0)) then CleanPairs(p, Obj(a), |a|) + [CleanPair(p, x)]
            else CleanPairs(p, Obj(a), |a|)
  {
    var all := a + [x];
    assert all[|a|] == x && all[..|a|] == a[..|a|];
    CleanDependsOnPrefix(p, a, all, |a|);
  }

  lemma UnifiedAppendIsFirst(before: Pairs, x: (string, Json))
    requires Unified(before) && IndexOf(before, Alias(x.0)).None?
    ensures IsFirst(before + [(Alias(x.0), x.1)], |before|)
  {
    AliasFixed(x.0);
    var all := before + [(Alias(x.0), x.1)];
    forall h | 0 <= h < |before|
      ensures Alias(all[h].0) != Alias(all[|before|].0)
    {
      assert all[h] == before[h];
    }
  }

  lemma CleanUnifiedStep(p: Policy, front: Pairs, before: Pairs, last: (string, Json))
    requires Unifies(front, before) && CleanPairs(p, Obj(before), |before|) == CleanPairs(p, Obj(front), |front|)
    ensures var done := if IndexOf(before, Alias(last.0)).None? then before + [(Alias(last.0), last.1)] else before;
            CleanPairs(p, Obj(done), |done|) == CleanPairs(p, Obj(front + [last]), |front| + 1)
  {
    LastIsFirst(front, before, last);
    CleanAppend(p, front, last);
    AliasFixed(last.0);
    if IndexOf(before, Alias(last.0)).None? {
      UnifiesIsUnified(front, before);
      UnifiedAppendIsFirst(before, last);
      CleanAppend(p, before, (Alias(last.0), last.1));
    }
  }

  lemma AddedAlias(done: Pairs, last: (string, Json))
    requires AddAlias(done, last.0, last.1).Ok?
    ensures AddAlias(done, last.0, last.1).value ==
            if IndexOf(done, Alias(last.0)).None? then done + [(Alias(last.0), last.1)] else done
  {
  }

  /** Cleaning after unifying the aliases is cleaning. */
  lemma {:induction false} CleanUnified(p: Policy, pairs: Pairs)
    requires NormalizedAliases(pairs).Ok?
    ensures var done := NormalizedAliases(pairs).value;
            CleanPairs(p, Obj(done), |done|) == CleanPairs(p, Obj(pairs), |pairs|)
  {
    if pairs != [] {
      var front, last := pairs[..|pairs| - 1], pairs[|pairs| - 1];
      var before := NormalizedAliases(front).value;
      CleanUnified(p, front);
      assert Unifies(front, before) by { AliasesExactly(front); }
      AddedAlias(before, last);
      CleanUnifiedStep(p, front, before, last);
      SplitLast(pairs);
    }
  }

  lemma SplitLast(pairs: Pairs)
    requires pairs != []
    ensures pairs[..|pairs| - 1] + [pairs[|pairs| - 1]] == pairs
  {
  }

  lemma UnifiedAgrees(pairs: Pairs)
    requires Unified(pairs) && forall i | 0 <= i < |pairs| :: pairs[i].0 != []
    ensures AliasesAgree(pairs)
  {
  }

  lemma SameSchema(pairs: Pairs, done: Pairs)
    requires Unifies(pairs, done)
    ensures HasSchema(pairs) <==> HasSchema(done)
  {
    UnifiesIsUnified(pairs, done);
    if HasSchema(pairs) {
      var i :| 0 <= i < |pairs| && Alias(pairs[i].0) == SCHEMA_KEY;
      assert Covered(pairs[i], done);
      var h :| 0 <= h < |done| && done[h].0 == Alias(pairs[i].0) && DumpSorted(done[h].1) == DumpSorted(pairs[i].1);
      assert Alias(done[h].0) == SCHEMA_KEY;
    }
    if HasSchema(done) {
      var h :| 0 <= h < |done| && Alias(done[h].0) == SCHEMA_KEY;
      assert ComesFrom(done[h], pairs);
      var i :| 0 <= i < |pairs| && IsFirst(pairs, i) && Alias(pairs[i].0) == done[h].0 && pairs[i].1 == done[h].1;
      assert Alias(pairs[i].0) == SCHEMA_KEY;
    }
  }

  lemma FirstsAreOne(pairs: Pairs, i: nat, j: nat)
    requires i < |pairs| && j < |pairs| && IsFirst(pairs, i) && IsFirst(pairs, j) && Alias(pairs[i].0) == Alias(pairs[j].0)
    ensures i == j
  {
  }

  /** Unifying the aliases first does not change what is acceptable. */
  lemma AcceptableUnified(p: Policy, pairs: Pairs, root: bool)
    requires NormalizedAliases(pairs).Ok?
    ensures Acceptable(p, Obj(NormalizedAliases(pairs).value), root) <==> Acceptable(p, Obj(pairs), root)
  {
    AliasesExactly(pairs);
    var done := NormalizedAliases(pairs).value;
    UnifiesIsUnified(pairs, done);
    SameSchema(pairs, done);
    forall h | 0 <= h < |done|
      ensures done[h].0 != []
    {
      UnifiedPairAcceptable(p, pairs, done, root, h);
    }
    UnifiedAgrees(done);
    if PairsAcceptable(p, pairs, root, |pairs|) {
      forall h | 0 <= h < |done|
        ensures PairAcceptable(p, done, root, h)
      {
        UnifiedPairAcceptable(p, pairs, done, root, h);
      }
    }
    if PairsAcceptable(p, done, root, |done|) {
      forall i | 0 <= i < |pairs|
        ensures PairAcceptable(p, pairs, root, i)
      {
        OriginalPairAcceptable(p, pairs, done, root, i);
      }
    }
    ObjectAcceptable(p, pairs, root);
    ObjectAcceptable(p, done, root);
  }

  lemma UnifiedPairAcceptable(p: Policy, pairs: Pairs, done: Pairs, root: bool, h: nat)
    requires Unifies(pairs, done) && AliasesAgree(pairs) && (HasSchema(pairs) <==> HasSchema(done)) && h < |done|
    ensures done[h].0 != []
    ensures PairsAcceptable(p, pairs, root, |pairs|) ==> PairAcceptable(p, done, root, h)
  {
    assert ComesFrom(done[h], pairs);
    var i :| 0 <= i < |pairs| && IsFirst(pairs, i) && Alias(pairs[i].0) == done[h].0 && pairs[i].1 == done[h].1;
    AliasFixed(pairs[i].0);
    if PairsAcceptable(p, pairs, root, |pairs|) { assert PairAcceptable(p, pairs, root, i); }
  }

  lemma OriginalPairAcceptable(p: Policy, pairs: Pairs, done: Pairs, root: bool, i: nat)
    requires Unifies(pairs, done) && Unified(done) && (HasSchema(pairs) <==> HasSchema(done)) && i < |pairs|
    requires PairsAcceptable(p, done, root, |done|)
    ensures PairAcceptable(p, pairs, root, i)
  {
    if Shown(p, pairs, i) {
      assert Covered(pairs[i], done);
      var h :| 0 <= h < |done| && done[h].0 == Alias(pairs[i].0) && DumpSorted(done[h].1) == DumpSorted(pairs[i].1);
      assert ComesFrom(done[h], pairs);
      var j :| 0 <= j < |pairs| && IsFirst(pairs, j) && Alias(pairs[j].0) == done[h].0 && pairs[j].1 == done[h].1;
      FirstsAreOne(pairs, i, j);
      UnifiedIsFirst(done, h);
      assert PairAcceptable(p, done, root, h);
    }
  }

  lemma ObjectAcceptable(p: Policy, pairs: Pairs, root: bool)
    ensures Acceptable(p, Obj(pairs), root) <==> AliasesAgree(pairs) && PairsAcceptable(p, pairs, root, |pairs|)
  {
  }

  /** The schema version, under whichever spelling comes first, is the supported one. */
  ghost predicate Versioned(pairs: Pairs) {
    exists i :: 0 <= i < |pairs| && IsFirst(pairs, i) && Alias(pairs[i].0) == SCHEMA_KEY && pairs[i].1 == Str(V2_SCHEMA_VERSION)
  }

  lemma VersionedUnified(pairs: Pairs, done: Pairs)
    requires Unifies(pairs, done)
    ensures var at := IndexOf(done, SCHEMA_KEY);
            Versioned(pairs) <==> at.Some? && done[at.value].1 == Str(V2_SCHEMA_VERSION)
  {
    var at := IndexOf(done, SCHEMA_KEY);
    if Versioned(pairs) {
      var i :| 0 <= i < |pairs| && IsFirst(pairs, i) && Alias(pairs[i].0) == SCHEMA_KEY && pairs[i].1 == Str(V2_SCHEMA_VERSION);
      assert Covered(pairs[i], done);
      assert at.Some? && ComesFrom(done[at.value], pairs);
      var j :| 0 <= j < |pairs| && IsFirst(pairs, j) && Alias(pairs[j].0) == done[at.value].0 && pairs[j].1 == done[at.value].1;
      FirstsAreOne(pairs, i, j);
    }
    if at.Some? { assert ComesFrom(done[at.value], pairs); }
  }

  lemma CanonicalizeUnified(p: Policy, pairs: Pairs)
    requires NormalizedAliases(pairs).Ok?
    ensures var r := Canonical(p, Obj(NormalizedAliases(pairs).value), true);
            (r.Ok? <==> Acceptable(p, Obj(pairs), true)) && (r.Ok? ==> r.value == Clean(p, Obj(pairs)))
  {
    var done := NormalizedAliases(pairs).value;
    CanonicalExactly(p, Obj(done), true);
    AcceptableUnified(p, pairs, true);
    CleanUnified(p, pairs);
    assert Clean(p, Obj(done)) == Obj(CleanPairs(p, Obj(done), |done|));
  }

  /** Exactly which plans have a canonical form, and that it is the cleaned plan. */
  lemma CanonicalizeExactly(p: Policy, v: Json)
    ensures Canonicalize(p, v).Ok? <==> v.Obj? && Versioned(v.pairs) && Acceptable(p, v, true)
    ensures Canonicalize(p, v).Ok? ==> Canonicalize(p, v).value == Clean(p, v)
  {
    if v.Obj? {
      AliasesExactly(v.pairs);
      ObjectAcceptable(p, v.pairs, true);
      if NormalizedAliases(v.pairs).Ok? {
        VersionedUnified(v.pairs, NormalizedAliases(v.pairs).value);
        CanonicalizeUnified(p, v.pairs);
      }
    }
  }

  // ----- idempotence

  /** Nothing is left to do: keys canonical and kept, text clean, set-like lists sorted. */
  ghost predicate Settled(p: Policy, v: Json) {
    match v
    case Str(s) => p.clean(s) == v
    case List(xs) => forall i | 0 <= i < |xs| :: Settled(p, xs[i])
    case Obj(pairs) =>
      && Unified(pairs)
      && forall i | 0 <= i < |pairs| ::
           && pairs[i].0 != [] && !Dropped(p, pairs[i].0) && Settled(p, pairs[i].1)
           && (SetLike(pairs[i].0) && pairs[i].1.List? ==> Order.Sorted(pairs[i].1.items, DumpSorted))
    case _ => true
  }

  lemma SortSettles(p: Policy, key: string, v: Json)
    requires Settled(p, v)
    ensures var r := SortIfSetLike(key, v);
            Settled(p, r) && (SetLike(key) && r.List? ==> Order.Sorted(r.items, DumpSorted))
  {
    if SetLike(key) && v.List? {
      Gates.SortMembers(v.items, DumpSorted);
      var r := SortIfSetLike(key, v);
      forall i | 0 <= i < |r.items|
        ensures Settled(p, r.items[i])
      {
        assert r.items[i] in v.items;
      }
    }
  }

  lemma {:induction false} CleanIsSettled(p: Policy, v: Json, root: bool)
    requires Sane(p) && Acceptable(p, v, root)
    ensures Settled(p, Clean(p, v))
    decreases v, Width(v) + 2
  {
    match v
    case List(xs) =>
      forall i | 0 <= i < |xs|
        ensures Settled(p, Clean(p, xs[i]))
      {
        CleanIsSettled(p, xs[i], false);
      }
    case Obj(pairs) =>
      PairsSettle(p, v, root, |pairs|);
    case _ =>
  }

  /** The cleaned pairs so far are settled, and their keys are among those shown so far. */
  ghost predicate SettledPairs(p: Policy, pairs: Pairs, cleaned: Pairs, n: nat)
    requires n <= |pairs|
  {
    && Settled(p, Obj(cleaned))
    && forall h | 0 <= h < |cleaned| :: KeyShown(p, pairs, n, cleaned[h].0)
  }

  ghost predicate KeyShown(p: Policy, pairs: Pairs, n: nat, key: string)
    requires n <= |pairs|
  {
    exists i :: 0 <= i < n && Shown(p, pairs, i) && Alias(pairs[i].0) == key
  }

  lemma KeyShownLater(p: Policy, pairs: Pairs, n: nat, key: string)
    requires n < |pairs| && KeyShown(p, pairs, n, key)
    ensures KeyShown(p, pairs, n + 1, key)
  {
    var i :| 0 <= i < n && Shown(p, pairs, i) && Alias(pairs[i].0) == key;
  }

  lemma {:induction false} PairsSettle(p: Policy, v: Json, root: bool, n: nat)
    requires Sane(p) && v.Obj? && n <= |v.pairs| && Acceptable(p, v, root)
    ensures SettledPairs(p, v.pairs, CleanPairs(p, v, n), n)
    decreases v, n + 1
  {
    if n > 0 {
      PairsSettle(p, v, root, n - 1);
      CleanPairsStep(p, v, n);
      if Shown(p, v.pairs, n - 1) {
        ShownIsAcceptable(p, v.pairs, root, n - 1);
        CleanIsSettled(p, v.pairs[n - 1].1, false);
        SettlesNext(p, v.pairs, CleanPairs(p, v, n - 1), n);
      } else {
        SettlesSame(p, v.pairs, CleanPairs(p, v, n - 1), n);
      }
    }
  }

  lemma ShownIsAcceptable(p: Policy, pairs: Pairs, root: bool, i: nat)
    requires Acceptable(p, Obj(pairs), root) && i < |pairs| && Shown(p, pairs, i)
    ensures pairs[i].0 != [] && Acceptable(p, pairs[i].1, false)
  {
    ObjectAcceptable(p, pairs, root);
    assert PairAcceptable(p, pairs, root, i);
  }

  lemma SettlesSame(p: Policy, pairs: Pairs, cleaned: Pairs, n: nat)
    requires 0 < n <= |pairs| && SettledPairs(p, pairs, cleaned, n - 1)
    ensures SettledPairs(p, pairs, cleaned, n)
  {
    forall h | 0 <= h < |cleaned|
      ensures KeyShown(p, pairs, n, cleaned[h].0)
    {
      KeyShownLater(p, pairs, n - 1, cleaned[h].0);
    }
  }

  lemma SettlesNext(p: Policy, pairs: Pairs, cleaned: Pairs, n: nat)
    requires 0 < n <= |pairs| && SettledPairs(p, pairs, cleaned, n - 1) && Shown(p, pairs, n - 1)
    requires pairs[n - 1].0 != [] && Settled(p, Clean(p, pairs[n - 1].1))
    ensures SettledPairs(p, pairs, cleaned + [CleanPair(p, pairs[n - 1])], n)
  {
    var x := CleanPair(p, pairs[n - 1]);
    AliasFixed(pairs[n - 1].0);
    SortSettles(p, x.0, Clean(p, pairs[n - 1].1));
    forall h | 0 <= h < |cleaned|
      ensures cleaned[h].0 != x.0 && KeyShown(p, pairs, n, cleaned[h].0)
    {
      KeyShownLater(p, pairs, n - 1, cleaned[h].0);
      assert KeyShown(p, pairs, n - 1, cleaned[h].0);
      var i :| 0 <= i < n - 1 && Shown(p, pairs, i) && Alias(pairs[i].0) == cleaned[h].0;
    }
  }

  lemma {:induction false} SettledIsFixed(p: Policy, v: Json)
    requires Settled(p, v)
    ensures Clean(p, v) == v && Acceptable(p, v, false)
    decreases v, Width(v) + 2
  {
    match v
    case List(xs) =>
      forall i | 0 <= i < |xs|
        ensures Clean(p, xs[i]) == xs[i] && Acceptable(p, xs[i], false)
      {
        SettledIsFixed(p, xs[i]);
      }
      assert CleanItems(p, v) == xs;
    case Obj(pairs) =>
      forall i | 0 <= i < |pairs|
        ensures Clean(p, pairs[i].1) == pairs[i].1 && Acceptable(p, pairs[i].1, false)
      {
        SettledIsFixed(p, pairs[i].1);
      }
      SettledPairsFixed(p, pairs, |pairs|);
      assert pairs[..|pairs|] == pairs;
      UnifiedAgrees(pairs);
    case _ =>
  }

  lemma {:induction false} SettledPairsFixed(p: Policy, pairs: Pairs, n: nat)
    requires Settled(p, Obj(pairs)) && n <= |pairs|
    requires forall i | 0 <= i < |pairs| :: Clean(p, pairs[i].1) == pairs[i].1
    ensures CleanPairs(p, Obj(pairs), n) == pairs[..n]
  {
    if n > 0 {
      SettledPairsFixed(p, pairs, n - 1);
      UnifiedIsFirst(pairs, n - 1);
      if SetLike(pairs[n - 1].0) && pairs[n - 1].1.List? { Gates.SortedIsFixed(pairs[n - 1].1.items, DumpSorted); }
      assert pairs[..n] == pairs[..n - 1] + [pairs[n - 1]];
    }
  }

  lemma SettledFields(p: Policy, v: Json)
    requires v.Obj? && Acceptable(p, v, true) && SettledPairs(p, v.pairs, CleanPairs(p, v, |v.pairs|), |v.pairs|)
    requires HasSchema(v.pairs)
    ensures Acceptable(p, Clean(p, v), false) ==> Acceptable(p, Clean(p, v), true)
  {
    var cleaned := CleanPairs(p, v, |v.pairs|);
    forall h | 0 <= h < |cleaned|
      ensures Alias(cleaned[h].0) in PLAN_FIELDS
    {
      assert KeyShown(p, v.pairs, |v.pairs|, cleaned[h].0);
      var i :| 0 <= i < |v.pairs| && Shown(p, v.pairs, i) && Alias(v.pairs[i].0) == cleaned[h].0;
      assert PairAcceptable(p, v.pairs, true, i);
      AliasFixed(v.pairs[i].0);
    }
    ObjectAcceptable(p, cleaned, false);
    ObjectAcceptable(p, cleaned, true);
    if PairsAcceptable(p, cleaned, false, |cleaned|) {
      forall h | 0 <= h < |cleaned|
        ensures PairAcceptable(p, cleaned, true, h)
      {
        assert PairAcceptable(p, cleaned, false, h);
      }
    }
  }

  lemma CleanPairsStep(p: Policy, v: Json, n: nat)
    requires v.Obj? && 0 < n <= |v.pairs|
    ensures CleanPairs(p, v, n) ==
            if Shown(p, v.pairs, n - 1) then CleanPairs(p, v, n - 1) + [CleanPair(p, v.pairs[n - 1])]
            else CleanPairs(p, v, n - 1)
  {
  }

  lemma {:induction false} CleanKeepsShown(p: Policy, v: Json, n: nat, i: nat)
    requires v.Obj? && i < n <= |v.pairs| && Shown(p, v.pairs, i)
    ensures CleanPair(p, v.pairs[i]) in CleanPairs(p, v, n)
  {
    CleanPairsStep(p, v, n);
    if i < n - 1 {
      CleanKeepsShown(p, v, n - 1, i);
      assert forall x | x in CleanPairs(p, v, n - 1) :: x in CleanPairs(p, v, n);
    }
  }

  lemma VersionStays(p: Policy, v: Json)
    requires Sane(p) && v.Obj? && Versioned(v.pairs) && Settled(p, Clean(p, v))
    ensures Versioned(CleanPairs(p, v, |v.pairs|))
  {
    SchemaKeyStays();
    var i :| 0 <= i < |v.pairs| && IsFirst(v.pairs, i) && Alias(v.pairs[i].0) == SCHEMA_KEY && v.pairs[i].1 == Str(V2_SCHEMA_VERSION);
    var cleaned := CleanPairs(p, v, |v.pairs|);
    CleanKeepsShown(p, v, |v.pairs|, i);
    var h :| 0 <= h < |cleaned| && cleaned[h] == CleanPair(p, v.pairs[i]);
    UnifiedIsFirst(cleaned, h);
  }

  /** Canonicalizing a canonical plan returns the very same plan. */
  lemma CanonicalizeIsIdempotent(p: Policy, v: Json)
    requires Sane(p) && Canonicalize(p, v).Ok?
    ensures Canonicalize(p, Canonicalize(p, v).value) == Canonicalize(p, v)
  {
    CanonicalizeExactly(p, v);
    var c := Clean(p, v);
    CleanIsSettled(p, v, true);
    PairsSettle(p, v, true, |v.pairs|);
    SettledIsFixed(p, c);
    assert HasSchema(v.pairs) by {
      var i :| 0 <= i < |v.pairs| && IsFirst(v.pairs, i) && Alias(v.pairs[i].0) == SCHEMA_KEY && v.pairs[i].1 == Str(V2_SCHEMA_VERSION);
    }
    SettledFields(p, v);
    VersionStays(p, v);
    CanonicalizeExactly(p, c);
  }

  // ----- which plans have the same canonical form

  /** Some kept pair has this canonical key. */
  ghost predicate Keeps(p: Policy, pairs: Pairs, key: string) {
    KeyShown(p, pairs, |pairs|, key)
  }

  /**
    The same plan in two representations: the same text once cleaned, the same kept keys under any spelling with the
    same values, and the items of set-like lists in any order.
  */
  ghost predicate Related(p: Policy, v: Json, w: Json)
    decreases v, 0
  {
    match v
    case List(xs) => w.List? && |xs| == |w.items| && forall i | 0 <= i < |xs| :: Related(p, xs[i], w.items[i])
    case Obj(pairs) =>
      && w.Obj?
      && (forall key :: Keeps(p, pairs, key) <==> Keeps(p, w.pairs, key))
      && (forall i, j | 0 <= i < |pairs| && 0 <= j < |w.pairs| && SameShown(p, pairs, i, w.pairs, j) ::
            RelatedAt(p, Alias(pairs[i].0), pairs[i].1, w.pairs[j].1))
    case _ => !w.List? && !w.Obj? && Clean(p, v) == Clean(p, w)
  }

  ghost predicate SameShown(p: Policy, a: Pairs, i: nat, b: Pairs, j: nat)
    requires i < |a| && j < |b|
  {
    Shown(p, a, i) && Shown(p, b, j) && Alias(a[i].0) == Alias(b[j].0)
  }

  ghost predicate RelatedAt(p: Policy, key: string, v: Json, w: Json)
    decreases v, 1
  {
    if SetLike(key) && v.List? && w.List? then
      |v.items| == |w.items| &&
      exists q | Permutations.IsPermutation(q, |v.items|) :: forall i | 0 <= i < |v.items| :: Related(p, v.items[i], w.items[q[i]])
    else Related(p, v, w)
  }

  // ----- goodness is kept

  lemma {:induction false} SortKeysIsGood(v: Json)
    requires Good(v)
    ensures Good(SortKeys(v))
    decreases v
  {
    match v
    case List(xs) =>
      forall i | 0 <= i < |xs|
        ensures Good(SortKeys(xs[i]))
      {
        SortKeysIsGood(xs[i]);
      }
    case Obj(ps) =>
      forall i | 0 <= i < |ps|
        ensures Good(SortKeys(ps[i].1))
      {
        SortKeysIsGood(ps[i].1);
      }
      var mapped := KeySortedPairs(ps);
      Gates.SortMembers(mapped, KeyOf);
      Gates.DistinctKeysByMembers(mapped, Order.Sort(mapped, KeyOf));
      forall h | 0 <= h < |ps|
        ensures Good(Order.Sort(mapped, KeyOf)[h].1)
      {
        assert Order.Sort(mapped, KeyOf)[h] in mapped;
      }
    case _ =>
  }

  function KeySortedPairs(ps: Pairs): (r: Pairs)
    ensures |r| == |ps| && forall i | 0 <= i < |r| :: r[i] == (ps[i].0, SortKeys(ps[i].1))
  {
    seq(|ps|, i requires 0 <= i < |ps| => (ps[i].0, SortKeys(ps[i].1)))
  }

  lemma SortedPairsOf(ps: Pairs)
    ensures SortKeys(Obj(ps)) == Obj(Order.Sort(KeySortedPairs(ps), KeyOf))
  {
    assert KeySortedPairs(ps) == seq(|ps|, i requires 0 <= i < |ps| => (ps[i].0, SortKeys(ps[i].1)));
  }

  function KeySortedItems(xs: seq<Json>): (r: seq<Json>)
    ensures |r| == |xs| && forall i | 0 <= i < |r| :: r[i] == SortKeys(xs[i])
  {
    seq(|xs|, i requires 0 <= i < |xs| => SortKeys(xs[i]))
  }

  lemma SortedItemsOf(xs: seq<Json>)
    ensures SortKeys(List(xs)) == List(KeySortedItems(xs))
  {
    assert KeySortedItems(xs) == seq(|xs|, i requires 0 <= i < |xs| => SortKeys(xs[i]));
  }

  lemma {:induction false} InsertSortsKeys(x: Json, xs: seq<Json>)
    ensures KeySortedItems(Order.Insert(x, xs, DumpSorted)) == Order.Insert(SortKeys(x), KeySortedItems(xs), Dump)
  {
    if xs == [] {
      assert KeySortedItems([x]) == [SortKeys(x)];
    } else {
      var rest := xs[1..];
      InsertSortsKeys(x, rest);
      assert xs == [xs[0]] + rest;
      KeySortedCons(xs[0], rest);
      if Order.Leq(DumpSorted(x), DumpSorted(xs[0])) {
        KeySortedCons(x, xs);
      } else {
        KeySortedCons(xs[0], Order.Insert(x, rest, DumpSorted));
      }
    }
  }

  lemma KeySortedCons(x: Json, xs: seq<Json>)
    ensures KeySortedItems([x] + xs) == [SortKeys(x)] + KeySortedItems(xs)
  {
  }

  /** Sorting by the key-sorted serialization and then sorting keys is sorting keys and then by serialization. */
  lemma {:induction false} SortSortsKeys(xs: seq<Json>)
    ensures KeySortedItems(Order.Sort(xs, DumpSorted)) == Order.Sort(KeySortedItems(xs), Dump)
  {
    if xs != [] {
      SortSortsKeys(xs[1..]);
      InsertSortsKeys(xs[0], Order.Sort(xs[1..], DumpSorted));
      assert xs == [xs[0]] + xs[1..];
      KeySortedCons(xs[0], xs[1..]);
    }
  }

  lemma {:induction false} CleanIsGood(p: Policy, v: Json)
    requires Sane(p) && Good(v)
    ensures Good(Clean(p, v))
    decreases v, Width(v) + 2
  {
    match v
    case List(xs) =>
      forall i | 0 <= i < |xs|
        ensures Good(Clean(p, xs[i]))
      {
        CleanIsGood(p, xs[i]);
      }
    case Obj(pairs) =>
      CleanPairsAreGood(p, v, |pairs|);
    case _ =>
  }

  /** The cleaned pairs so far: good values, distinct keys, each from a pair that is shown. */
  ghost predicate CleanedSoFar(p: Policy, pairs: Pairs, cleaned: Pairs, n: nat)
    requires n <= |pairs|
  {
    && Good(Obj(cleaned))
    && forall h | 0 <= h < |cleaned| :: CleanedFrom(p, pairs, n, cleaned[h])
  }

  ghost predicate CleanedFrom(p: Policy, pairs: Pairs, n: nat, x: (string, Json))
    requires n <= |pairs|
  {
    exists i :: 0 <= i < n && Shown(p, pairs, i) && CleanPair(p, pairs[i]) == x
  }

  lemma CleanedFromLater(p: Policy, pairs: Pairs, n: nat, x: (string, Json))
    requires n < |pairs| && CleanedFrom(p, pairs, n, x)
    ensures CleanedFrom(p, pairs, n + 1, x)
  {
    var i :| 0 <= i < n && Shown(p, pairs, i) && CleanPair(p, pairs[i]) == x;
  }

  lemma {:induction false} CleanPairsAreGood(p: Policy, v: Json, n: nat)
    requires Sane(p) && v.Obj? && Good(v) && n <= |v.pairs|
    ensures CleanedSoFar(p, v.pairs, CleanPairs(p, v, n), n)
    decreases v, n + 1
  {
    if n == 0 {
      assert CleanPairs(p, v, 0) == [];
    } else {
      CleanPairsAreGood(p, v, n - 1);
      CleanPairsStep(p, v, n);
      CleanedLater(p, v.pairs, CleanPairs(p, v, n - 1), n);
      if Shown(p, v.pairs, n - 1) {
        CleanIsGood(p, v.pairs[n - 1].1);
        CleanedNext(p, v.pairs, CleanPairs(p, v, n - 1), n);
      }
    }
  }

  lemma CleanedLater(p: Policy, pairs: Pairs, before: Pairs, n: nat)
    requires 0 < n <= |pairs| && CleanedSoFar(p, pairs, before, n - 1)
    ensures CleanedSoFar(p, pairs, before, n)
  {
    forall h | 0 <= h < |before|
      ensures CleanedFrom(p, pairs, n, before[h])
    {
      CleanedFromLater(p, pairs, n - 1, before[h]);
    }
  }

  lemma CleanedNext(p: Policy, pairs: Pairs, before: Pairs, n: nat)
    requires 0 < n <= |pairs| && Shown(p, pairs, n - 1) && Good(Clean(p, pairs[n - 1].1))
    requires CleanedSoFar(p, pairs, before, n - 1) && CleanedSoFar(p, pairs, before, n)
    ensures CleanedSoFar(p, pairs, before + [CleanPair(p, pairs[n - 1])], n)
  {
    var x := CleanPair(p, pairs[n - 1]);
    assert CleanedFrom(p, pairs, n, x);
    SortIfSetLikeIsGood(x.0, Clean(p, pairs[n - 1].1));
    forall h | 0 <= h < |before|
      ensures before[h].0 != x.0
    {
      assert CleanedFrom(p, pairs, n - 1, before[h]);
      var i :| 0 <= i < n - 1 && Shown(p, pairs, i) && CleanPair(p, pairs[i]) == before[h];
    }
  }

  lemma SortIfSetLikeIsGood(key: string, v: Json)
    requires Good(v)
    ensures Good(SortIfSetLike(key, v))
  {
    if SetLike(key) && v.List? {
      Gates.SortMembers(v.items, DumpSorted);
      var r := Order.Sort(v.items, DumpSorted);
      forall i | 0 <= i < |r|
        ensures Good(r[i])
      {
        assert r[i] in v.items;
      }
    }
  }

  // ----- deciding it

  /** The canonical form up to the order of keys, which the bytes do not show. */
  function Form(p: Policy, v: Json): Json {
    SortKeys(Clean(p, v))
  }

  lemma FormIsGood(p: Policy, v: Json)
    requires Sane(p) && Good(v)
    ensures Good(Form(p, v))
  {
    CleanIsGood(p, v);
    SortKeysIsGood(Clean(p, v));
  }

  function Forms(p: Policy, xs: seq<Json>): (r: seq<Json>)
    ensures |r| == |xs| && forall i | 0 <= i < |r| :: r[i] == Form(p, xs[i])
  {
    seq(|xs|, i requires 0 <= i < |xs| => Form(p, xs[i]))
  }

  /** Equal up to order, item by item. */
  ghost predicate FormsMatch(p: Policy, xs: seq<Json>, ys: seq<Json>) {
    |xs| == |ys| && exists q | Permutations.IsPermutation(q, |xs|) :: forall i | 0 <= i < |xs| :: Form(p, xs[i]) == Form(p, ys[q[i]])
  }

  lemma FormsMatchExactly(p: Policy, xs: seq<Json>, ys: seq<Json>)
    ensures multiset(Forms(p, xs)) == multiset(Forms(p, ys)) <==> FormsMatch(p, xs, ys)
  {
    Permutations.RearrangedExactly(Forms(p, xs), Forms(p, ys));
    if exists q :: Permutations.Matches(Forms(p, xs), Forms(p, ys), q) {
      var q :| Permutations.Matches(Forms(p, xs), Forms(p, ys), q);
      forall i | 0 <= i < |xs|
        ensures Form(p, xs[i]) == Form(p, ys[q[i]])
      {
        assert Forms(p, xs)[i] == Forms(p, ys)[q[i]];
      }
    }
    if FormsMatch(p, xs, ys) {
      var q :| Permutations.IsPermutation(q, |xs|) && forall i | 0 <= i < |xs| :: Form(p, xs[i]) == Form(p, ys[q[i]]);
      assert Permutations.Matches(Forms(p, xs), Forms(p, ys), q);
    }
  }

  lemma SortedListForm(p: Policy, v: Json)
    requires v.List?
    ensures SortKeys(List(Order.Sort(CleanItems(p, v), DumpSorted))) == List(Order.Sort(Forms(p, v.items), Dump))
  {
    SortedItemsOf(Order.Sort(CleanItems(p, v), DumpSorted));
    SortSortsKeys(CleanItems(p, v));
    assert KeySortedItems(CleanItems(p, v)) == Forms(p, v.items);
  }

  /** A set-like list has the same form exactly when its items do in some order. */
  lemma SetLikeExactly(p: Policy, v: Json, w: Json)
    requires Sane(p) && Good(v) && v.List? && w.List?
    ensures SortKeys(List(Order.Sort(CleanItems(p, v), DumpSorted))) == SortKeys(List(Order.Sort(CleanItems(p, w), DumpSorted)))
            <==> FormsMatch(p, v.items, w.items)
  {
    SortedListForm(p, v);
    SortedListForm(p, w);
    var xs := Forms(p, v.items);
    forall x, y | x in xs && y in xs && Dump(x) == Dump(y)
      ensures x == y
    {
      var i, j :| 0 <= i < |xs| && xs[i] == x && 0 <= j < |xs| && xs[j] == y;
      FormIsGood(p, v.items[i]);
      FormIsGood(p, v.items[j]);
      DumpInjective(x, y);
    }
    Order.SortForgetsOrder(xs, Forms(p, w.items), Dump);
    FormsMatchExactly(p, v.items, w.items);
  }

  /** The form a value takes under a key. */
  function FormAt(p: Policy, key: string, v: Json): Json {
    SortKeys(SortIfSetLike(key, Clean(p, v)))
  }

  lemma CleanKind(p: Policy, v: Json)
    requires Sane(p)
    ensures (Clean(p, v).List? <==> v.List?) && (Clean(p, v).Obj? <==> v.Obj?)
    ensures (Form(p, v).List? <==> v.List?) && (Form(p, v).Obj? <==> v.Obj?)
    ensures !v.List? && !v.Obj? ==> Form(p, v) == Clean(p, v)
  {
  }

  lemma FormAtExactly(p: Policy, key: string, v: Json, w: Json)
    requires Sane(p) && Good(v) && Good(w)
    ensures FormAt(p, key, v) == FormAt(p, key, w) <==>
              if SetLike(key) && v.List? && w.List? then FormsMatch(p, v.items, w.items) else Form(p, v) == Form(p, w)
  {
    CleanKind(p, v);
    CleanKind(p, w);
    if SetLike(key) && v.List? && w.List? { SetLikeExactly(p, v, w); }
  }

  /** What the induction gives for two values: their items, or themselves, are related when their forms are equal. */
  ghost predicate Decided(p: Policy, v: Json, w: Json) {
    && (Form(p, v) == Form(p, w) <==> Related(p, v, w))
    && (v.List? && w.List? ==>
          forall i, j | 0 <= i < |v.items| && 0 <= j < |w.items| ::
            Form(p, v.items[i]) == Form(p, w.items[j]) <==> Related(p, v.items[i], w.items[j]))
  }

  lemma SetLikeDecides(p: Policy, key: string, v: Json, w: Json)
    requires SetLike(key) && v.List? && w.List?
    requires forall i, j | 0 <= i < |v.items| && 0 <= j < |w.items| ::
               Form(p, v.items[i]) == Form(p, w.items[j]) <==> Related(p, v.items[i], w.items[j])
    ensures FormsMatch(p, v.items, w.items) <==> RelatedAt(p, key, v, w)
  {
    var xs, ys := v.items, w.items;
    if FormsMatch(p, xs, ys) {
      var q :| Permutations.IsPermutation(q, |xs|) && forall i | 0 <= i < |xs| :: Form(p, xs[i]) == Form(p, ys[q[i]]);
      RelatedBy(p, key, v, w, q);
    }
    if RelatedAt(p, key, v, w) {
      var q :| Permutations.IsPermutation(q, |xs|) && forall i | 0 <= i < |xs| :: Related(p, xs[i], ys[q[i]]);
      MatchedBy(p, xs, ys, q);
    }
  }

  lemma RelatedBy(p: Policy, key: string, v: Json, w: Json, q: seq<nat>)
    requires SetLike(key) && v.List? && w.List? && |v.items| == |w.items| && Permutations.IsPermutation(q, |v.items|)
    requires forall i | 0 <= i < |v.items| :: Related(p, v.items[i], w.items[q[i]])
    ensures RelatedAt(p, key, v, w)
  {
  }

  lemma MatchedBy(p: Policy, xs: seq<Json>, ys: seq<Json>, q: seq<nat>)
    requires |xs| == |ys| && Permutations.IsPermutation(q, |xs|)
    requires forall i | 0 <= i < |xs| :: Form(p, xs[i]) == Form(p, ys[q[i]])
    ensures FormsMatch(p, xs, ys)
  {
  }

  lemma FormAtDecides(p: Policy, key: string, v: Json, w: Json)
    requires Sane(p) && Good(v) && Good(w) && Decided(p, v, w)
    ensures FormAt(p, key, v) == FormAt(p, key, w) <==> RelatedAt(p, key, v, w)
  {
    FormAtExactly(p, key, v, w);
    if SetLike(key) && v.List? && w.List? { SetLikeDecides(p, key, v, w); }
  }

  // ----- objects

  lemma {:induction false} CountOfDistinctKeys(ps: Pairs, x: (string, Json))
    requires DistinctKeys(ps)
    ensures multiset(ps)[x] == if x in ps then 1 else 0
  {
    if ps != [] {
      var rest := ps[1..];
      assert ps == [ps[0]] + rest && ps[0] !in rest;
      CountOfDistinctKeys(rest, x);
    }
  }

  lemma SameMembersSameMultiset(a: Pairs, b: Pairs)
    requires DistinctKeys(a) && DistinctKeys(b)
    ensures multiset(a) == multiset(b) <==> forall x :: x in a <==> x in b
  {
    if forall x :: x in a <==> x in b {
      forall x: (string, Json)
        ensures multiset(a)[x] == multiset(b)[x]
      {
        CountOfDistinctKeys(a, x);
        CountOfDistinctKeys(b, x);
      }
    }
    if multiset(a) == multiset(b) {
      forall x: (string, Json)
        ensures x in a <==> x in b
      {
        assert x in a <==> x in multiset(a);
      }
    }
  }

  /** Two objects with distinct keys have the same key-sorted form exactly when they have the same key-sorted pairs. */
  lemma ObjectFormsExactly(a: Pairs, b: Pairs)
    requires DistinctKeys(a) && DistinctKeys(b)
    ensures SortKeys(Obj(a)) == SortKeys(Obj(b)) <==> forall x :: x in KeySortedPairs(a) <==> x in KeySortedPairs(b)
  {
    var ka, kb := KeySortedPairs(a), KeySortedPairs(b);
    SortedPairsOf(a);
    SortedPairsOf(b);
    forall x, y | x in ka && y in ka && KeyOf(x) == KeyOf(y)
      ensures x == y
    {
      var i, j :| 0 <= i < |ka| && ka[i] == x && 0 <= j < |ka| && ka[j] == y;
      Gates.OneIndexPerKey(a, i, j);
    }
    Order.SortForgetsOrder(ka, kb, KeyOf);
    SameMembersSameMultiset(ka, kb);
  }

  /** The pair a shown key contributes to the form. */
  function FormPair(p: Policy, x: (string, Json)): (string, Json) {
    (Alias(x.0), FormAt(p, Alias(x.0), x.1))
  }

  ghost predicate Contributes(p: Policy, pairs: Pairs, x: (string, Json)) {
    exists i :: 0 <= i < |pairs| && Shown(p, pairs, i) && FormPair(p, pairs[i]) == x
  }

  lemma FormMembers(p: Policy, v: Json, x: (string, Json))
    requires Sane(p) && v.Obj? && Good(v)
    ensures x in KeySortedPairs(CleanPairs(p, v, |v.pairs|)) <==> Contributes(p, v.pairs, x)
  {
    var cleaned := CleanPairs(p, v, |v.pairs|);
    CleanPairsAreGood(p, v, |v.pairs|);
    if x in KeySortedPairs(cleaned) {
      var h :| 0 <= h < |cleaned| && KeySortedPairs(cleaned)[h] == x;
      assert CleanedFrom(p, v.pairs, |v.pairs|, cleaned[h]);
      var i :| 0 <= i < |v.pairs| && Shown(p, v.pairs, i) && CleanPair(p, v.pairs[i]) == cleaned[h];
      assert FormPair(p, v.pairs[i]) == x;
    }
    if Contributes(p, v.pairs, x) {
      var i :| 0 <= i < |v.pairs| && Shown(p, v.pairs, i) && FormPair(p, v.pairs[i]) == x;
      CleanKeepsShown(p, v, |v.pairs|, i);
      var h :| 0 <= h < |cleaned| && cleaned[h] == CleanPair(p, v.pairs[i]);
      assert KeySortedPairs(cleaned)[h] == x;
    }
  }

  lemma ObjectForm(p: Policy, v: Json, w: Json)
    requires Sane(p) && v.Obj? && w.Obj? && Good(v) && Good(w)
    ensures Form(p, v) == Form(p, w) <==> forall x :: Contributes(p, v.pairs, x) <==> Contributes(p, w.pairs, x)
  {
    CleanPairsAreGood(p, v, |v.pairs|);
    CleanPairsAreGood(p, w, |w.pairs|);
    ObjectFormsExactly(CleanPairs(p, v, |v.pairs|), CleanPairs(p, w, |w.pairs|));
    var a, b := KeySortedPairs(CleanPairs(p, v, |v.pairs|)), KeySortedPairs(CleanPairs(p, w, |w.pairs|));
    forall x: (string, Json)
      ensures x in a <==> Contributes(p, v.pairs, x)
      ensures x in b <==> Contributes(p, w.pairs, x)
    {
      FormMembers(p, v, x);
      FormMembers(p, w, x);
    }
  }

  /** The same kept keys with the same forms. */
  ghost predicate SameForms(p: Policy, a: Pairs, b: Pairs) {
    && (forall key :: Keeps(p, a, key) <==> Keeps(p, b, key))
    && (forall i, j | 0 <= i < |a| && 0 <= j < |b| && SameShown(p, a, i, b, j) ::
          FormAt(p, Alias(a[i].0), a[i].1) == FormAt(p, Alias(a[i].0), b[j].1))
  }

  lemma ContributesBoth(p: Policy, a: Pairs, b: Pairs, x: (string, Json))
    requires SameForms(p, a, b) && Contributes(p, a, x)
    ensures Contributes(p, b, x)
  {
    var i :| 0 <= i < |a| && Shown(p, a, i) && FormPair(p, a[i]) == x;
    assert KeyShown(p, a, |a|, x.0) && Keeps(p, a, x.0);
    assert Keeps(p, b, x.0);
    var j :| 0 <= j < |b| && Shown(p, b, j) && Alias(b[j].0) == x.0;
    assert SameShown(p, a, i, b, j);
    assert FormPair(p, b[j]) == x;
  }

  lemma SameFormsFlip(p: Policy, a: Pairs, b: Pairs)
    requires SameForms(p, a, b)
    ensures SameForms(p, b, a)
  {
    forall i, j | 0 <= i < |b| && 0 <= j < |a| && SameShown(p, b, i, a, j)
      ensures FormAt(p, Alias(b[i].0), b[i].1) == FormAt(p, Alias(b[i].0), a[j].1)
    {
      assert SameShown(p, a, j, b, i);
    }
  }

  lemma KeptContributes(p: Policy, a: Pairs, b: Pairs, key: string)
    requires (forall x :: Contributes(p, a, x) ==> Contributes(p, b, x)) && Keeps(p, a, key)
    ensures Keeps(p, b, key)
  {
    var i :| 0 <= i < |a| && Shown(p, a, i) && Alias(a[i].0) == key;
    assert Contributes(p, a, FormPair(p, a[i]));
    var j :| 0 <= j < |b| && Shown(p, b, j) && FormPair(p, b[j]) == FormPair(p, a[i]);
  }

  lemma SameFormsExactly(p: Policy, a: Pairs, b: Pairs)
    ensures SameForms(p, a, b) <==> forall x :: Contributes(p, a, x) <==> Contributes(p, b, x)
  {
    if SameForms(p, a, b) {
      SameFormsFlip(p, a, b);
      forall x: (string, Json)
        ensures Contributes(p, a, x) <==> Contributes(p, b, x)
      {
        if Contributes(p, a, x) { ContributesBoth(p, a, b, x); }
        if Contributes(p, b, x) { ContributesBoth(p, b, a, x); }
      }
    }
    if forall x :: Contributes(p, a, x) <==> Contributes(p, b, x) {
      forall key: string
        ensures Keeps(p, a, key) <==> Keeps(p, b, key)
      {
        if Keeps(p, a, key) { KeptContributes(p, a, b, key); }
        if Keeps(p, b, key) { KeptContributes(p, b, a, key); }
      }
      forall i, j | 0 <= i < |a| && 0 <= j < |b| && SameShown(p, a, i, b, j)
        ensures FormAt(p, Alias(a[i].0), a[i].1) == FormAt(p, Alias(a[i].0), b[j].1)
      {
        assert Contributes(p, a, FormPair(p, a[i]));
        var k :| 0 <= k < |b| && Shown(p, b, k) && FormPair(p, b[k]) == FormPair(p, a[i]);
        FirstsAreOne(b, j, k);
      }
    }
  }

  lemma ObjectsDecided(p: Policy, v: Json, w: Json)
    requires Sane(p) && v.Obj? && w.Obj? && Good(v) && Good(w)
    requires forall i, j | 0 <= i < |v.pairs| && 0 <= j < |w.pairs| :: Decided(p, v.pairs[i].1, w.pairs[j].1)
    ensures Form(p, v) == Form(p, w) <==> Related(p, v, w)
  {
    ObjectForm(p, v, w);
    SameFormsExactly(p, v.pairs, w.pairs);
    forall i, j | 0 <= i < |v.pairs| && 0 <= j < |w.pairs|
      ensures FormAt(p, Alias(v.pairs[i].0), v.pairs[i].1) == FormAt(p, Alias(v.pairs[i].0), w.pairs[j].1)
              <==> RelatedAt(p, Alias(v.pairs[i].0), v.pairs[i].1, w.pairs[j].1)
    {
      FormAtDecides(p, Alias(v.pairs[i].0), v.pairs[i].1, w.pairs[j].1);
    }
    assert SameForms(p, v.pairs, w.pairs) <==> Related(p, v, w);
  }

  lemma ListsDecided(p: Policy, v: Json, w: Json)
    requires v.List? && w.List?
    requires forall i, j | 0 <= i < |v.items| && 0 <= j < |w.items| ::
               Form(p, v.items[i]) == Form(p, w.items[j]) <==> Related(p, v.items[i], w.items[j])
    ensures Form(p, v) == Form(p, w) <==> Related(p, v, w)
  {
    SortedItemsOf(CleanItems(p, v));
    SortedItemsOf(CleanItems(p, w));
    assert KeySortedItems(CleanItems(p, v)) == Forms(p, v.items);
    assert KeySortedItems(CleanItems(p, w)) == Forms(p, w.items);
    if Form(p, v) == Form(p, w) {
      forall i | 0 <= i < |v.items|
        ensures Form(p, v.items[i]) == Form(p, w.items[i])
      {
        assert Forms(p, v.items)[i] == Forms(p, w.items)[i];
      }
    }
    if Related(p, v, w) { assert Forms(p, v.items) == Forms(p, w.items); }
  }

  lemma {:induction false} FormDecides(p: Policy, v: Json, w: Json)
    requires Sane(p) && Good(v) && Good(w)
    ensures Decided(p, v, w)
    decreases v
  {
    CleanKind(p, v);
    CleanKind(p, w);
    if v.List? && w.List? {
      forall i, j | 0 <= i < |v.items| && 0 <= j < |w.items|
        ensures Form(p, v.items[i]) == Form(p, w.items[j]) <==> Related(p, v.items[i], w.items[j])
      {
        FormDecides(p, v.items[i], w.items[j]);
      }
      ListsDecided(p, v, w);
    } else if v.Obj? && w.Obj? {
      forall i, j | 0 <= i < |v.pairs| && 0 <= j < |w.pairs|
        ensures Decided(p, v.pairs[i].1, w.pairs[j].1)
      {
        FormDecides(p, v.pairs[i].1, w.pairs[j].1);
      }
      ObjectsDecided(p, v, w);
    }
  }

  /** Two plans have the same canonical bytes, and so the same hash, exactly when they are the same plan differently represented. */
  lemma CanonicalBytesDecide(p: Policy, v: Json, w: Json)
    requires Sane(p) && Good(v) && Good(w) && Canonicalize(p, v).Ok? && Canonicalize(p, w).Ok?
    ensures CanonicalBytes(p, v) == CanonicalBytes(p, w) <==> Related(p, v, w)
  {
    CanonicalizeExactly(p, v);
    CanonicalizeExactly(p, w);
    FormDecides(p, v, w);
    FormIsGood(p, v);
    FormIsGood(p, w);
    if CanonicalBytes(p, v) == CanonicalBytes(p, w) { DumpInjective(Form(p, v), Form(p, w)); }
  }

  // ----- the loops

  /** Unify the aliases of one object, stopping at the first bad key or conflict. */
  method UnifyAliases(pairs: Pairs) returns (r: Result<Pairs, Error>)
    ensures r == NormalizedAliases(pairs)
  {
    var done: Pairs := [];
    var i := 0;
    while i < |pairs|
      invariant 0 <= i <= |pairs| && NormalizedAliases(pairs[..i]) == Ok(done)
    {
      assert pairs[..i + 1][..i] == pairs[..i];
      var added := AddAlias(done, pairs[i].0, pairs[i].1);
      if added.Err? {
        ErrorsStay(pairs, i + 1);
        return Err(added.error);
      }
      done := added.value;
      i := i + 1;
    }
    assert pairs[..i] == pairs;
    r := Ok(done);
  }

  lemma {:induction false} ErrorsStay(pairs: Pairs, n: nat)
    requires n <= |pairs| && NormalizedAliases(pairs[..n]).Err?
    ensures NormalizedAliases(pairs) == NormalizedAliases(pairs[..n])
    decreases |pairs|
  {
    if n == |pairs| {
      assert pairs[..n] == pairs;
    } else {
      assert pairs[..|pairs| - 1][..n] == pairs[..n];
      ErrorsStay(pairs[..|pairs| - 1], n);
    }
  }

  lemma {:induction false} PairErrorsStay(p: Policy, v: Json, root: bool, n: nat, m: nat)
    requires v.Obj? && n <= m <= |v.pairs| && CanonicalPairs(p, v, root, n).Err?
    ensures CanonicalPairs(p, v, root, m) == CanonicalPairs(p, v, root, n)
    decreases m
  {
    if n < m { PairErrorsStay(p, v, root, n, m - 1); }
  }

  lemma {:induction false} ItemErrorsStay(p: Policy, v: Json, n: nat, m: nat)
    requires v.List? && n <= m <= |v.items| && CanonicalItems(p, v, n).Err?
    ensures CanonicalItems(p, v, m) == CanonicalItems(p, v, n)
    decreases m
  {
    if n < m { ItemErrorsStay(p, v, n, m - 1); }
  }

  /** The canonical value, filling one result object or list at a time. */
  method CanonicalValue(p: Policy, v: Json, root: bool) returns (r: Result<Json, Error>)
    ensures r == Canonical(p, v, root)
    decreases v, 1
  {
    match v {
      case Str(s) => r := Ok(p.clean(s));
      case List(_) => r := CanonicalList(p, v);
      case Obj(_) => r := CanonicalObject(p, v, root);
      case _ => r := Ok(v);
    }
  }

  method CanonicalList(p: Policy, v: Json) returns (r: Result<Json, Error>)
    requires v.List?
    ensures r == Canonical(p, v, false)
    decreases v, 0
  {
    var items: seq<Json> := [];
    var i := 0;
    while i < |v.items|
      invariant 0 <= i <= |v.items| && CanonicalItems(p, v, i) == Ok(items)
    {
      var x := CanonicalValue(p, v.items[i], false);
      if x.Err? {
        ItemErrorsStay(p, v, i + 1, |v.items|);
        return Err(x.error);
      }
      items := items + [x.value];
      i := i + 1;
    }
    r := Ok(List(items));
  }

  /** The i-th pair's turn: skip it, refuse it, or add its canonical value. */
  method CanonicalPair(p: Policy, v: Json, root: bool, i: nat, done: Pairs) returns (r: Result<Pairs, Error>)
    requires v.Obj? && i < |v.pairs| && CanonicalPairs(p, v, root, i) == Ok(done)
    ensures r == CanonicalPairs(p, v, root, i + 1)
    decreases v, 0, 0
  {
    var key := Alias(v.pairs[i].0);
    if !Shown(p, v.pairs, i) { return Ok(done); }
    if root && HasSchema(v.pairs) && key !in PLAN_FIELDS { return Err(UnknownField); }
    var x := CanonicalValue(p, v.pairs[i].1, false);
    r := if x.Err? then Err(x.error) else Ok(done + [(key, SortIfSetLike(key, x.value))]);
  }

  method CanonicalObject(p: Policy, v: Json, root: bool) returns (r: Result<Json, Error>)
    requires v.Obj?
    ensures r == Canonical(p, v, root)
    decreases v, 0, 1
  {
    var unified := UnifyAliases(v.pairs);
    if unified.Err? { return Err(unified.error); }
    var done: Pairs := [];
    var i := 0;
    while i < |v.pairs|
      invariant 0 <= i <= |v.pairs| && CanonicalPairs(p, v, root, i) == Ok(done)
    {
      var next := CanonicalPair(p, v, root, i, done);
      if next.Err? {
        PairErrorsStay(p, v, root, i + 1, |v.pairs|);
        return Err(next.error);
      }
      done := next.value;
      i := i + 1;
    }
    r := Ok(Obj(done));
  }

  method CanonicalizePlan(p: Policy, v: Json) returns (r: Result<Json, Error>)
    ensures r == Canonicalize(p, v)
  {
    if !v.Obj? { return Err(NotAnObject); }
    var unified := UnifyAliases(v.pairs);
    if unified.Err? { return Err(unified.error); }
    var at := IndexOf(unified.value, SCHEMA_KEY);
    if at.None? || unified.value[at.value].1 != Str(V2_SCHEMA_VERSION) { return Err(UnsupportedSchema); }
    r := CanonicalValue(p, Obj(unified.value), true);
  }
}
