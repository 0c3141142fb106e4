/**
  The durable checkpoint store of one run: a target file, its backup, and a save that can be cut off at any stage.

  `accepts` is the reader's validation of a checkpoint's content.  It is a parameter because the writer does not
  apply it: `save` seals whatever content it is given, and only `load` rejects unsafe or unknown fields.
*/
module CheckpointStore {
  import opened Wrappers

  datatype Envelope = Envelope(planHash: string, generation: nat, content: string)

  datatype File = Absent | Holds(envelope: Envelope)

  datatype Directory = Directory(target: File, backup: File)

  datatype Stage = Write | Fsync | Backup | Replace | DirectoryFsync

  datatype Error = StaleGeneration | Interrupted(stage: Stage) | Unreadable | PlanHashDrift | GenerationDrift

  datatype Save = Save(envelope: Envelope, fault: Option<Stage>)

  const EMPTY := Directory(Absent, Absent)

  // ----- reading

  predicate Readable(f: File, accepts: string -> bool, plan: Option<string>) {
    f.Holds? && accepts(f.envelope.content) && (plan.Some? ==> f.envelope.planHash == plan.value)
  }

  function Candidates(d: Directory, accepts: string -> bool, plan: Option<string>): seq<Envelope> {
    (if Readable(d.target, accepts, plan) then [d.target.envelope] else []) +
    (if Readable(d.backup, accepts, plan) then [d.backup.envelope] else [])
  }

  /** The first candidate of the highest generation. */
  function Newest(candidates: seq<Envelope>): (r: Envelope)
    requires candidates != []
    ensures r in candidates && forall e | e in candidates :: e.generation <= r.generation
  {
    if |candidates| == 1 then candidates[0]
    else
      var rest := Newest(candidates[1..]);
      if candidates[0].generation >= rest.generation then candidates[0] else rest
  }

  function Load(d: Directory, accepts: string -> bool, plan: Option<string>, generation: Option<nat>): Result<Envelope, Error> {
    var found := Candidates(d, accepts, plan);
    if found == [] then
      Err(if plan.Some? && Candidates(d, accepts, None) != [] then PlanHashDrift else Unreadable)
    else
      var newest := Newest(found);
      if generation.Some? && newest.generation != generation.value then Err(GenerationDrift) else Ok(newest)
  }

  // ----- saving

  predicate Fresh(d: Directory, accepts: string -> bool, e: Envelope) {
    forall c | c in Candidates(d, accepts, None) :: c.generation < e.generation
  }

  /** Whether the save gets as far as the replace step. */
  predicate Replaces(d: Directory, accepts: string -> bool, s: Save) {
    && Fresh(d, accepts, s.envelope)
    && s.fault != Some(Write) && s.fault != Some(Fsync) && s.fault != Some(Replace)
    && !(s.fault == Some(Backup) && d.target.Holds?)
  }

  function Perform(d: Directory, accepts: string -> bool, s: Save): (Directory, Result<(), Error>) {
    if !Fresh(d, accepts, s.envelope) then (d, Err(StaleGeneration))
    else if s.fault == Some(Write) || s.fault == Some(Fsync) then (d, Err(Interrupted(s.fault.value)))
    else if s.fault == Some(Backup) && d.target.Holds? then (d, Err(Interrupted(Backup)))
    else
      var moved := if d.target.Holds? then Directory(Absent, d.target) else d;
      if s.fault == Some(Replace) then (moved, Err(Interrupted(Replace)))
      else (moved.(target := Holds(s.envelope)),
            if s.fault == Some(DirectoryFsync) then Err(Interrupted(DirectoryFsync)) else Ok(()))
  }

  function State(accepts: string -> bool, run: seq<Save>): Directory {
    if run == [] then EMPTY else Perform(State(accepts, run[..|run| - 1]), accepts, run[|run| - 1]).0
  }

  lemma OneMoreSave(accepts: string -> bool, run: seq<Save>, s: Save)
    ensures State(accepts, run + [s]) == Perform(State(accepts, run), accepts, s).0
  {
    assert (run + [s])[..|run|] == run;
  }

  /** The envelopes whose replace step happened, oldest first. */
  function Replaced(accepts: string -> bool, run: seq<Save>): seq<Envelope> {
    if run == [] then []
    else
      var past := run[..|run| - 1];
      Replaced(accepts, past) +
      if Replaces(State(accepts, past), accepts, run[|run| - 1]) then [run[|run| - 1].envelope] else []
  }

  // ----- what the directory holds

  function Last(r: seq<Envelope>): Envelope
    requires r != []
  {
    r[|r| - 1]
  }

  /** After any run the directory holds the last replaced envelope, and at most the one before it as backup. */
  ghost predicate Layout(d: Directory, r: seq<Envelope>) {
    if r == [] then d == EMPTY
    else
      || d == Directory(Absent, Holds(Last(r)))
      || d == Directory(Holds(Last(r)), if |r| >= 2 then Holds(r[|r| - 2]) else Absent)
  }

  /** A readable envelope is only ever superseded by a higher generation. */
  ghost predicate Climbs(accepts: string -> bool, r: seq<Envelope>) {
    forall i | 0 <= i < |r| - 1 && accepts(r[i].content) :: r[i].generation < r[i + 1].generation
  }

  lemma SaveKeepsLayout(accepts: string -> bool, d: Directory, r: seq<Envelope>, s: Save)
    requires Layout(d, r)
    ensures Layout(Perform(d, accepts, s).0, if Replaces(d, accepts, s) then r + [s.envelope] else r)
  {
  }

  lemma SaveKeepsClimbing(accepts: string -> bool, d: Directory, r: seq<Envelope>, s: Save)
    requires Layout(d, r) && Climbs(accepts, r) && Replaces(d, accepts, s)
    ensures Climbs(accepts, r + [s.envelope])
  {
    if r != [] && accepts(Last(r).content) {
      assert Last(r) in Candidates(d, accepts, None);
    }
  }

  lemma {:induction false} Reachable(accepts: string -> bool, run: seq<Save>)
    ensures Layout(State(accepts, run), Replaced(accepts, run))
    ensures Climbs(accepts, Replaced(accepts, run))
  {
    if run != [] {
      var past, s := run[..|run| - 1], run[|run| - 1];
      Reachable(accepts, past);
      var d, r := State(accepts, past), Replaced(accepts, past);
      SaveKeepsLayout(accepts, d, r, s);
      if Replaces(d, accepts, s) { SaveKeepsClimbing(accepts, d, r, s); } else { assert r + [] == r; }
    }
  }

  // ----- crash safety

  ghost predicate AllAccepted(accepts: string -> bool, run: seq<Save>) {
    forall s | s in run :: accepts(s.envelope.content)
  }

  lemma {:induction false} ReplacedWereSaved(accepts: string -> bool, run: seq<Save>)
    ensures forall e | e in Replaced(accepts, run) :: exists s :: s in run && s.envelope == e
  {
    if run != [] {
      var past := run[..|run| - 1];
      ReplacedWereSaved(accepts, past);
      forall e | e in Replaced(accepts, run)
        ensures exists s :: s in run && s.envelope == e
      {
        if e in Replaced(accepts, past) {
          var s :| s in past && s.envelope == e;
          assert s in run;
        } else {
          assert run[|run| - 1] in run;
        }
      }
    }
  }

  /**
    Whatever stages a sequence of saves was cut off at, loading returns the last envelope that was put in place
    exactly when the reader accepts that envelope's content.
  */
  lemma LoadReturnsLastExactly(accepts: string -> bool, run: seq<Save>)
    requires Replaced(accepts, run) != []
    ensures Load(State(accepts, run), accepts, None, None) == Ok(Last(Replaced(accepts, run)))
            <==> accepts(Last(Replaced(accepts, run)).content)
  {
    Reachable(accepts, run);
    var d, r := State(accepts, run), Replaced(accepts, run);
    var found := Candidates(d, accepts, None);
    if accepts(Last(r).content) {
      if |r| >= 2 && accepts(r[|r| - 2].content) {
        assert r[|r| - 2].generation < r[|r| - 1].generation;
      }
    } else if found != [] {
      assert Newest(found) in found;
      assert accepts(Newest(found).content);
    }
  }

  lemma ReplacedAreAccepted(accepts: string -> bool, run: seq<Save>)
    requires AllAccepted(accepts, run)
    ensures forall e | e in Replaced(accepts, run) :: accepts(e.content)
  {
    ReplacedWereSaved(accepts, run);
  }

  ghost predicate StrictlyClimbs(r: seq<Envelope>) {
    forall i, j | 0 <= i < j < |r| :: r[i].generation < r[j].generation
  }

  lemma ReplacedClimb(accepts: string -> bool, run: seq<Save>)
    requires AllAccepted(accepts, run)
    ensures StrictlyClimbs(Replaced(accepts, run))
  {
    Reachable(accepts, run);
    ReplacedAreAccepted(accepts, run);
    var r := Replaced(accepts, run);
    forall i, j | 0 <= i < j < |r|
      ensures r[i].generation < r[j].generation
    {
      ClimbsFar(accepts, r, i, j);
    }
  }

  /** With readable contents only, a crash never loses a checkpoint and generations strictly climb. */
  lemma CrashSafety(accepts: string -> bool, run: seq<Save>)
    requires AllAccepted(accepts, run)
    ensures var r := Replaced(accepts, run);
            Load(State(accepts, run), accepts, None, None) == (if r == [] then Err(Unreadable) else Ok(Last(r)))
    ensures StrictlyClimbs(Replaced(accepts, run))
  {
    var r := Replaced(accepts, run);
    if r == [] {
      Reachable(accepts, run);
    } else {
      ReplacedAreAccepted(accepts, run);
      assert Last(r) in r;
      LoadReturnsLastExactly(accepts, run);
    }
    ReplacedClimb(accepts, run);
  }

  lemma {:induction false} ClimbsFar(accepts: string -> bool, r: seq<Envelope>, i: nat, j: nat)
    requires Climbs(accepts, r) && (forall e | e in r :: accepts(e.content)) && i < j < |r|
    ensures r[i].generation < r[j].generation
  {
    assert r[j - 1] in r;
    if i < j - 1 { ClimbsFar(accepts, r, i, j - 1); }
  }

  lemma {:induction false} ReplacedGrows(accepts: string -> bool, run: seq<Save>, more: seq<Save>)
    ensures Replaced(accepts, run) <= Replaced(accepts, run + more)
    decreases |more|
  {
    if more == [] {
      assert run + more == run;
    } else {
      ReplacedGrows(accepts, run, more[..|more| - 1]);
      assert (run + more)[..|run + more| - 1] == run + more[..|more| - 1];
    }
  }

  lemma PrefixAccepted(accepts: string -> bool, run: seq<Save>, more: seq<Save>)
    requires AllAccepted(accepts, run + more)
    ensures AllAccepted(accepts, run)
  {
    forall s | s in run
      ensures accepts(s.envelope.content)
    {
      assert s in run + more;
    }
  }

  /** What load returns never goes back to an older generation, however the run continues. */
  lemma LoadedGenerationsClimb(accepts: string -> bool, run: seq<Save>, more: seq<Save>)
    requires AllAccepted(accepts, run + more) && Replaced(accepts, run) != []
    ensures var before := Load(State(accepts, run), accepts, None, None);
            var after := Load(State(accepts, run + more), accepts, None, None);
            before.Ok? && after.Ok? && before.value.generation <= after.value.generation
  {
    PrefixAccepted(accepts, run, more);
    CrashSafety(accepts, run);
    CrashSafety(accepts, run + more);
    ReplacedGrows(accepts, run, more);
    LaterIsHigher(Replaced(accepts, run), Replaced(accepts, run + more));
  }

  lemma LaterIsHigher(r: seq<Envelope>, t: seq<Envelope>)
    requires r != [] && r <= t && StrictlyClimbs(t)
    ensures t != [] && Last(r).generation <= Last(t).generation
  {
    assert t[|r| - 1] == Last(r);
  }

  /** Writers that propose the same generation after any run: whoever holds the lock first wins, the other is refused. */
  lemma OneWriterPerGeneration(accepts: string -> bool, run: seq<Save>, a: Envelope, b: Envelope)
    requires a.generation == b.generation && accepts(a.content)
    requires Fresh(State(accepts, run), accepts, a)
    ensures var first := Perform(State(accepts, run), accepts, Save(a, None));
            && first.1 == Ok(())
            && Perform(first.0, accepts, Save(b, None)) == (first.0, Err(StaleGeneration))
            && Load(first.0, accepts, None, None) == Ok(a)
  {
    var d := State(accepts, run);
    var t := Perform(d, accepts, Save(a, None)).0;
    assert a in Candidates(t, accepts, None);
    var next := run + [Save(a, None)];
    assert next[..|run|] == run;
    LoadReturnsLastExactly(accepts, next);
  }

  /** Over a whole run of readable checkpoints no generation is ever put in place twice. */
  lemma GenerationsAreUnique(accepts: string -> bool, run: seq<Save>, i: nat, j: nat)
    requires AllAccepted(accepts, run)
    requires i < |Replaced(accepts, run)| && j < |Replaced(accepts, run)|
    requires Replaced(accepts, run)[i].generation == Replaced(accepts, run)[j].generation
    ensures i == j
  {
    CrashSafety(accepts, run);
  }

  /** When the directory cannot be loaded at all. */
  lemma UnreadableExactly(accepts: string -> bool, run: seq<Save>)
    ensures var d, r := State(accepts, run), Replaced(accepts, run);
            Load(d, accepts, None, None).Err? <==>
              r == [] || (!accepts(Last(r).content) &&
                          (d.target == Absent || |r| < 2 || !accepts(r[|r| - 2].content)))
  {
    Reachable(accepts, run);
    var d := State(accepts, run);
    assert Load(d, accepts, None, None).Err? <==> Candidates(d, accepts, None) == [];
  }

  /** It takes one unreadable checkpoint and one interrupted save to lose a good one. */
  lemma UnreadableContentLosesCheckpoint()
    ensures var accepts := (c: string) => c != "token";
            var good, bad := Envelope("h", 1, "ok"), Envelope("h", 2, "token");
            var run := [Save(good, None), Save(bad, None), Save(Envelope("h", 3, "ok"), Some(Replace))];
            && Load(State(accepts, run[..1]), accepts, None, None) == Ok(good)
            && Load(State(accepts, run[..2]), accepts, None, None) == Ok(good)
            && Load(State(accepts, run), accepts, None, None) == Err(Unreadable)
  {
    var accepts := (c: string) => c != "token";
    var good, bad := Envelope("h", 1, "ok"), Envelope("h", 2, "token");
    var run := [Save(good, None), Save(bad, None), Save(Envelope("h", 3, "ok"), Some(Replace))];
    assert run[..1][..0] == [] && run[..2][..1] == run[..1] && run[..3][..2] == run[..2] && run[..3] == run;
    assert State(accepts, run[..1]) == Directory(Holds(good), Absent);
    assert Candidates(State(accepts, run[..1]), accepts, None) == [good];
    assert State(accepts, run[..2]) == Directory(Holds(bad), Holds(good));
    assert Candidates(State(accepts, run[..2]), accepts, None) == [good];
    assert State(accepts, run) == Directory(Absent, Holds(bad));
  }

  /** The last replaced envelope if it has the plan, else the one before it if that is still there and has it. */
  function NewestOfPlan(d: Directory, r: seq<Envelope>, plan: string): Result<Envelope, Error>
    requires r != []
  {
    if Last(r).planHash == plan then Ok(Last(r))
    else if d.target.Holds? && |r| >= 2 && r[|r| - 2].planHash == plan then Ok(r[|r| - 2])
    else Err(PlanHashDrift)
  }

  /**
    Asking for a particular plan filters before it takes the newest: the answer is the last checkpoint exactly when
    that one has the plan, and otherwise may silently be the one before it.
  */
  lemma LoadForPlanExactly(accepts: string -> bool, run: seq<Save>, plan: string)
    requires AllAccepted(accepts, run) && Replaced(accepts, run) != []
    ensures Load(State(accepts, run), accepts, Some(plan), None) == NewestOfPlan(State(accepts, run), Replaced(accepts, run), plan)
  {
    Reachable(accepts, run);
    ReplacedAreAccepted(accepts, run);
    ReplacedClimb(accepts, run);
    LoadForPlanFrom(accepts, State(accepts, run), Replaced(accepts, run), plan);
  }

  lemma LoadForPlanFrom(accepts: string -> bool, d: Directory, r: seq<Envelope>, plan: string)
    requires Layout(d, r) && r != [] && StrictlyClimbs(r) && forall e | e in r :: accepts(e.content)
    ensures Load(d, accepts, Some(plan), None) == NewestOfPlan(d, r, plan)
  {
    assert Last(r) in r && accepts(Last(r).content);
    if |r| >= 2 {
      assert r[|r| - 2] in r && accepts(r[|r| - 2].content) && r[|r| - 2].generation < Last(r).generation;
    }
    assert Candidates(d, accepts, None) != [];
  }

  // ----- the store itself

  class CheckpointV2Store {
    var target: File
    var backup: File
    var temporary: File
    const accepts: string -> bool
    ghost var run: seq<Save>

    ghost function View(): Directory
      reads this
    {
      Directory(target, backup)
    }

    ghost predicate Valid()
      reads this
    {
      View() == State(accepts, run)
    }

    constructor (accepts: string -> bool)
      ensures Valid() && run == [] && this.accepts == accepts
    {
      this.accepts := accepts;
      target, backup, temporary := Absent, Absent, Absent;
      run := [];
    }

    /** Write the temporary file, keep the old target as backup, then replace; `fault` cuts the save off at a stage. */
    method SaveCheckpoint(e: Envelope, fault: Option<Stage>) returns (r: Result<(), Error>)
      requires Valid()
      modifies this
      ensures run == old(run) + [Save(e, fault)] && Valid()
      ensures (View(), r) == Perform(old(View()), accepts, Save(e, fault))
      ensures temporary == Absent || r == Err(StaleGeneration)
    {
      r := Ok(());
      var current := Candidates(Directory(target, backup), accepts, None);
      if current != [] && e.generation <= Newest(current).generation {
        r := Err(StaleGeneration);
      } else {
        if fault == Some(Write) {
          r := Err(Interrupted(Write));
        } else {
          temporary := Holds(e);
          if fault == Some(Fsync) { r := Err(Interrupted(Fsync)); }
        }
        if r.Ok? && target.Holds? {
          if fault == Some(Backup) {
            r := Err(Interrupted(Backup));
          } else {
            target, backup := Absent, target;
          }
        }
        if r.Ok? && fault == Some(Replace) { r := Err(Interrupted(Replace)); }
        if r.Ok? {
          target, temporary := temporary, Absent;
          if fault == Some(DirectoryFsync) { r := Err(Interrupted(DirectoryFsync)); }
        }
        temporary := Absent;
      }
      OneMoreSave(accepts, run, Save(e, fault));
      run := run + [Save(e, fault)];
    }

    method LoadCheckpoint(plan: Option<string>, generation: Option<nat>) returns (r: Result<Envelope, Error>)
      ensures r == Load(View(), accepts, plan, generation)
    {
      var found: seq<Envelope> := [];
      if Readable(target, accepts, plan) { found := found + [target.envelope]; }
      if Readable(backup, accepts, plan) { found := found + [backup.envelope]; }
      if found == [] {
        if plan.Some? && Candidates(Directory(target, backup), accepts, None) != [] { return Err(PlanHashDrift); }
        return Err(Unreadable);
      }
      var newest := Newest(found);
      if generation.Some? && newest.generation != generation.value { return Err(GenerationDrift); }
      r := Ok(newest);
    }
  }
}
