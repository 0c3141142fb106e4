/**
  Saving a state to several files as one transaction: temporaries first, then backups, then replacements, with the
  replaced files restored when something fails.

  Every step may fail in the way an `Environment` says.  A failed copy may leave anything in its destination; a rename
  is atomic.  An interrupt is an exception the program does not catch: it skips the restoring.
*/
module StateFiles {
  import opened Wrappers

  datatype File = Absent | Holds(text: string)

  datatype Fault = Fine | Fails(leaves: File) | Interrupt(leaves: File)

  /** How each step on the i-th file goes; the last is the step that puts an old file back. */
  datatype Environment = Environment(temporary: nat -> Fault, backup: nat -> Fault, replace: nat -> Fault, restore: nat -> Fault)

  datatype Outcome = Saved | Failed | RecoveryFailed | Interrupted

  datatype Disk = Disk(targets: seq<File>, backups: seq<File>)

  predicate WellFormed(d: Disk, contents: seq<string>) {
    |d.targets| == |d.backups| == |contents|
  }

  // ----- the three phases, each from its i-th file on

  /** The fault that ends writing the temporaries, if any. */
  function WriteTemporaries(e: Environment, n: nat, i: nat): (fault: Fault)
    requires i <= n
    ensures fault == Fine <==> forall k | i <= k < n :: e.temporary(k) == Fine
    decreases n - i
  {
    if i == n then Fine
    else if e.temporary(i) != Fine then e.temporary(i)
    else WriteTemporaries(e, n, i + 1)
  }

  function CopyBackups(e: Environment, targets: seq<File>, backups: seq<File>, i: nat): (r: (seq<File>, Fault))
    requires i <= |targets| == |backups|
    ensures |r.0| == |backups|
    decreases |targets| - i
  {
    if i == |targets| then (backups, Fine)
    else if targets[i] == Absent then CopyBackups(e, targets, backups, i + 1)
    else if e.backup(i) != Fine then (backups[i := e.backup(i).leaves], e.backup(i))
    else CopyBackups(e, targets, backups[i := targets[i]], i + 1)
  }

  /** How many files get replaced before a fault, and that fault. */
  function ReplacedUntil(e: Environment, n: nat, i: nat): (r: (nat, Fault))
    requires i <= n
    ensures i <= r.0 <= n && (r.1 == Fine <==> r.0 == n)
    ensures forall k | i <= k < r.0 :: e.replace(k) == Fine
    ensures r.0 < n ==> r.1 == e.replace(r.0)
    decreases n - i
  {
    if i == n then (n, Fine)
    else if e.replace(i) != Fine then (i, e.replace(i))
    else ReplacedUntil(e, n, i + 1)
  }

  /** The first `k` targets new, the others old. */
  function Mixed(targets: seq<File>, contents: seq<string>, k: nat): (r: seq<File>)
    requires k <= |targets| == |contents|
    ensures |r| == |targets|
    ensures forall i | 0 <= i < |r| :: r[i] == if i < k then Holds(contents[i]) else targets[i]
  {
    seq(|targets|, i requires 0 <= i < |targets| => if i < k then Holds(contents[i]) else targets[i])
  }

  /** Putting back the first `k` files, last one first; a failed restore does not stop the others, an interrupt does. */
  function Restore(e: Environment, targets: seq<File>, backups: seq<File>, existed: seq<bool>, k: nat): (r: (seq<File>, Outcome))
    requires k <= |targets| == |backups| == |existed|
    ensures |r.0| == |targets|
    decreases k
  {
    if k == 0 then (targets, Failed)
    else
      var j := k - 1;
      var missing := existed[j] && backups[j] == Absent;
      var fault := if missing then Fails(targets[j]) else e.restore(j);
      match fault
      case Interrupt(leaves) => (targets[j := leaves], Interrupted)
      case Fails(leaves) =>
        var (rest, outcome) := Restore(e, targets[j := leaves], backups, existed, j);
        (rest, if outcome == Interrupted then Interrupted else RecoveryFailed)
      case Fine =>
        Restore(e, targets[j := if existed[j] then backups[j] else Absent], backups, existed, j)
  }

  function Existed(targets: seq<File>): (r: seq<bool>)
    ensures |r| == |targets| && forall i | 0 <= i < |r| :: r[i] == targets[i].Holds?
  {
    seq(|targets|, i requires 0 <= i < |targets| => targets[i].Holds?)
  }

  function Transaction(e: Environment, d: Disk, contents: seq<string>): (r: (Disk, Outcome))
    requires WellFormed(d, contents)
    ensures WellFormed(r.0, contents)
  {
    var n := |contents|;
    var written := WriteTemporaries(e, n, 0);
    if written != Fine then (d, if written.Interrupt? then Interrupted else Failed)
    else
      var (backups, copied) := CopyBackups(e, d.targets, d.backups, 0);
      if copied != Fine then (Disk(d.targets, backups), if copied.Interrupt? then Interrupted else Failed)
      else
        var (k, replaced) := ReplacedUntil(e, n, 0);
        var mixed := Mixed(d.targets, contents, k);
        if replaced == Fine then (Disk(mixed, backups), Saved)
        else if replaced.Interrupt? then (Disk(mixed, backups), Interrupted)
        else
          var (restored, outcome) := Restore(e, mixed, backups, Existed(d.targets), k);
          (Disk(restored, backups), outcome)
  }

  // ----- what each phase guarantees

  lemma {:induction false} BackupsHoldOld(e: Environment, targets: seq<File>, backups: seq<File>, i: nat)
    requires i <= |targets| == |backups|
    ensures var (after, fault) := CopyBackups(e, targets, backups, i);
            && (forall k | 0 <= k < i :: after[k] == backups[k])
            && (forall k | i <= k < |targets| && targets[k] == Absent :: after[k] == backups[k])
            && (fault == Fine ==> forall k | i <= k < |targets| && targets[k].Holds? :: after[k] == targets[k])
    decreases |targets| - i
  {
    if i < |targets| {
      if targets[i] == Absent {
        BackupsHoldOld(e, targets, backups, i + 1);
      } else if e.backup(i) == Fine {
        BackupsHoldOld(e, targets, backups[i := targets[i]], i + 1);
      }
    }
  }

  /** The backups hold the old contents of every file that existed. */
  ghost predicate BackedUp(old_: seq<File>, backups: seq<File>) {
    |old_| == |backups| && forall k | 0 <= k < |old_| && old_[k].Holds? :: backups[k] == old_[k]
  }

  /** Restoring ends `Failed` exactly when every restore works, and then every file is as it was. */
  lemma {:induction false} RestoreExactly(e: Environment, old_: seq<File>, targets: seq<File>, backups: seq<File>, k: nat)
    requires k <= |targets| == |old_| && BackedUp(old_, backups)
    requires forall i | k <= i < |old_| :: targets[i] == old_[i]
    ensures var (after, outcome) := Restore(e, targets, backups, Existed(old_), k);
            && outcome != Saved
            && (outcome == Failed <==> forall j | 0 <= j < k :: e.restore(j) == Fine)
            && (outcome == Failed ==> after == old_)
            && (outcome == Interrupted <==> exists j | 0 <= j < k :: e.restore(j).Interrupt?)
    decreases k
  {
    if k > 0 {
      var j := k - 1;
      match e.restore(j)
      case Interrupt(_) =>
      case Fails(leaves) => RestoreOutcome(e, targets[j := leaves], backups, old_, j);
      case Fine => RestoreExactly(e, old_, targets[j := old_[j]], backups, j);
    }
  }

  /** Once one restore has failed only interrupts matter for the outcome of the rest. */
  lemma {:induction false} RestoreOutcome(e: Environment, targets: seq<File>, backups: seq<File>, old_: seq<File>, k: nat)
    requires k <= |targets| == |old_| && BackedUp(old_, backups)
    ensures var outcome := Restore(e, targets, backups, Existed(old_), k).1;
            && outcome != Saved
            && (outcome == Failed <==> forall j | 0 <= j < k :: e.restore(j) == Fine)
            && (outcome == Interrupted <==> exists j | 0 <= j < k :: e.restore(j).Interrupt?)
    decreases k
  {
    if k > 0 {
      var j := k - 1;
      match e.restore(j)
      case Interrupt(_) =>
      case Fails(leaves) => RestoreOutcome(e, targets[j := leaves], backups, old_, j);
      case Fine => RestoreOutcome(e, targets[j := old_[j]], backups, old_, j);
    }
  }

  // ----- the transaction

  /** An ordinary failure leaves every target as it was before the call, whatever step failed. */
  lemma FailureRestoresEverything(e: Environment, d: Disk, contents: seq<string>)
    requires WellFormed(d, contents) && Transaction(e, d, contents).1 == Failed
    ensures Transaction(e, d, contents).0.targets == d.targets
  {
    if WriteTemporaries(e, |contents|, 0) == Fine {
      var (backups, copied) := CopyBackups(e, d.targets, d.backups, 0);
      BackupsHoldOld(e, d.targets, d.backups, 0);
      if copied == Fine {
        var k := ReplacedUntil(e, |contents|, 0).0;
        RestoreExactly(e, d.targets, Mixed(d.targets, contents, k), backups, k);
      }
    }
  }

  /** Success leaves every target new and every old content in its backup. */
  lemma SuccessReplacesEverything(e: Environment, d: Disk, contents: seq<string>)
    requires WellFormed(d, contents) && Transaction(e, d, contents).1 == Saved
    ensures var after := Transaction(e, d, contents).0;
            forall i | 0 <= i < |contents| ::
              && after.targets[i] == Holds(contents[i])
              && after.backups[i] == if d.targets[i].Holds? then d.targets[i] else d.backups[i]
  {
    BackupsHoldOld(e, d.targets, d.backups, 0);
    var (backups, copied) := CopyBackups(e, d.targets, d.backups, 0);
    var (k, replaced) := ReplacedUntil(e, |contents|, 0);
    if replaced.Fails? { RestoreExactly(e, d.targets, Mixed(d.targets, contents, k), backups, k); }
  }

  /** The replacing phase is reached. */
  predicate Prepared(e: Environment, d: Disk, n: nat)
    requires |d.targets| == |d.backups|
  {
    WriteTemporaries(e, n, 0) == Fine && CopyBackups(e, d.targets, d.backups, 0).1 == Fine
  }

  /** When a recovery error is raised: a replacement failed and a restore of an earlier one failed, uninterrupted. */
  lemma RecoveryErrorExactly(e: Environment, d: Disk, contents: seq<string>)
    requires WellFormed(d, contents)
    ensures var (k, fault) := ReplacedUntil(e, |contents|, 0);
            Transaction(e, d, contents).1 == RecoveryFailed <==>
              && Prepared(e, d, |contents|) && fault.Fails?
              && (exists j | 0 <= j < k :: e.restore(j).Fails?)
              && (forall j | 0 <= j < k :: !e.restore(j).Interrupt?)
  {
    var (backups, copied) := CopyBackups(e, d.targets, d.backups, 0);
    BackupsHoldOld(e, d.targets, d.backups, 0);
    var (k, fault) := ReplacedUntil(e, |contents|, 0);
    if Prepared(e, d, |contents|) {
      RestoreExactly(e, d.targets, Mixed(d.targets, contents, k), backups, k);
      if (exists j | 0 <= j < k :: e.restore(j) != Fine) && forall j | 0 <= j < k :: !e.restore(j).Interrupt? {
        var j :| 0 <= j < k && e.restore(j) != Fine;
        assert e.restore(j).Fails?;
      }
    }
  }

  /** However the transaction ends, every old content is still in its target or in its backup. */
  lemma OldContentsAreNeverLost(e: Environment, d: Disk, contents: seq<string>, i: nat)
    requires WellFormed(d, contents) && i < |contents| && d.targets[i].Holds?
    ensures var after := Transaction(e, d, contents).0;
            after.targets[i] == d.targets[i] || after.backups[i] == d.targets[i]
  {
    BackupsHoldOld(e, d.targets, d.backups, 0);
  }

  /** Without faults in restoring and without interrupts the transaction is atomic: all targets new, or none changed. */
  lemma AllOrNothing(e: Environment, d: Disk, contents: seq<string>)
    requires WellFormed(d, contents)
    requires forall i | 0 <= i < |contents| ::
               !e.temporary(i).Interrupt? && !e.backup(i).Interrupt? && !e.replace(i).Interrupt? && e.restore(i) == Fine
    ensures var (after, outcome) := Transaction(e, d, contents);
            if outcome == Saved then forall i | 0 <= i < |contents| :: after.targets[i] == Holds(contents[i])
            else outcome == Failed && after.targets == d.targets
  {
    var n := |contents|;
    var (backups, copied) := CopyBackups(e, d.targets, d.backups, 0);
    BackupsHoldOld(e, d.targets, d.backups, 0);
    NoInterruptedPhase(e, d, 0);
    var (k, fault) := ReplacedUntil(e, n, 0);
    if WriteTemporaries(e, n, 0) == Fine && copied == Fine && fault.Fails? {
      RestoreExactly(e, d.targets, Mixed(d.targets, contents, k), backups, k);
    }
    TransactionIsNotInterrupted(e, n, 0);
  }

  lemma {:induction false} TransactionIsNotInterrupted(e: Environment, n: nat, i: nat)
    requires i <= n && forall k | i <= k < n :: !e.temporary(k).Interrupt?
    ensures !WriteTemporaries(e, n, i).Interrupt?
    decreases n - i
  {
    if i < n { TransactionIsNotInterrupted(e, n, i + 1); }
  }

  lemma {:induction false} NoInterruptedPhase(e: Environment, d: Disk, i: nat)
    requires i <= |d.targets| == |d.backups| && forall k | i <= k < |d.targets| :: !e.backup(k).Interrupt?
    ensures !CopyBackups(e, d.targets, d.backups, i).1.Interrupt?
    decreases |d.targets| - i
  {
    if i < |d.targets| {
      NoInterruptedPhase(e, d, i + 1);
      NoInterruptedPhase(e, Disk(d.targets, d.backups[i := d.targets[i]]), i + 1);
    }
  }

  // ----- where every target ends

  /** Each temporary is written, and each file that exists is backed up. */
  ghost predicate AllPrepared(e: Environment, targets: seq<File>) {
    forall i | 0 <= i < |targets| :: e.temporary(i) == Fine && (targets[i].Holds? ==> e.backup(i) == Fine)
  }

  /** Restoring stopped above the i-th file, which is the one order it goes in. */
  ghost predicate InterruptedAbove(e: Environment, i: nat, k: nat) {
    exists j | i < j < k :: e.restore(j).Interrupt?
  }

  /** The i-th target afterwards, read off the faults: `k` is the first replacement that goes wrong, if any. */
  ghost function EndsAs(e: Environment, d: Disk, contents: seq<string>, k: nat, i: nat): File
    requires WellFormed(d, contents) && i < |contents|
  {
    var before, new_ := d.targets[i], Holds(contents[i]);
    if !AllPrepared(e, d.targets) || i >= k then before
    else if k == |contents| || e.replace(k).Interrupt? || InterruptedAbove(e, i, k) then new_
    else if e.restore(i) == Fine then before
    else e.restore(i).leaves
  }

  /** `k` is the first replacement that goes wrong, or the number of files when none does. */
  ghost predicate FirstFault(e: Environment, n: nat, k: nat) {
    k <= n && (forall i | 0 <= i < k :: e.replace(i) == Fine) && (k < n ==> e.replace(k) != Fine)
  }

  lemma {:induction false} BackupsWorkExactly(e: Environment, targets: seq<File>, backups: seq<File>, i: nat)
    requires i <= |targets| == |backups|
    ensures CopyBackups(e, targets, backups, i).1 == Fine <==> forall k | i <= k < |targets| && targets[k].Holds? :: e.backup(k) == Fine
    decreases |targets| - i
  {
    if i < |targets| {
      BackupsWorkExactly(e, targets, backups, i + 1);
      BackupsWorkExactly(e, targets, backups[i := targets[i]], i + 1);
    }
  }

  lemma PreparedExactly(e: Environment, d: Disk, n: nat)
    requires |d.targets| == |d.backups| == n
    ensures Prepared(e, d, n) <==> AllPrepared(e, d.targets)
  {
    BackupsWorkExactly(e, d.targets, d.backups, 0);
  }

  /** One file after restoring the first `k`. */
  lemma {:induction false} RestoreAt(e: Environment, old_: seq<File>, targets: seq<File>, backups: seq<File>, k: nat, i: nat)
    requires k <= |targets| == |old_| && BackedUp(old_, backups) && i < |targets|
    ensures Restore(e, targets, backups, Existed(old_), k).0[i] ==
              if i >= k || InterruptedAbove(e, i, k) then targets[i]
              else if e.restore(i) == Fine then old_[i]
              else e.restore(i).leaves
    decreases k
  {
    if k > 0 {
      var j := k - 1;
      assert InterruptedAbove(e, i, k) <==> InterruptedAbove(e, i, j) || (i < j && e.restore(j).Interrupt?);
      match e.restore(j)
      case Interrupt(_) =>
      case Fails(leaves) => RestoreAt(e, old_, targets[j := leaves], backups, j, i);
      case Fine => RestoreAt(e, old_, targets[j := old_[j]], backups, j, i);
    }
  }

  /** For every combination of faults, what each target holds when the transaction ends. */
  lemma TargetsExactly(e: Environment, d: Disk, contents: seq<string>, k: nat, i: nat)
    requires WellFormed(d, contents) && FirstFault(e, |contents|, k) && i < |contents|
    ensures Transaction(e, d, contents).0.targets[i] == EndsAs(e, d, contents, k, i)
  {
    var n := |contents|;
    PreparedExactly(e, d, n);
    if Prepared(e, d, n) {
      var (backups, copied) := CopyBackups(e, d.targets, d.backups, 0);
      BackupsHoldOld(e, d.targets, d.backups, 0);
      assert ReplacedUntil(e, n, 0).0 == k;
      RestoreAt(e, d.targets, Mixed(d.targets, contents, k), backups, k, i);
    }
  }

  ghost predicate Torn(e: Environment, d: Disk, contents: seq<string>)
    requires WellFormed(d, contents)
  {
    var after := Transaction(e, d, contents).0.targets;
    after != d.targets && after != Mixed(d.targets, contents, |contents|)
  }

  /** The targets end neither all old nor all new exactly when the faults leave one file not old and one not new. */
  lemma TornExactly(e: Environment, d: Disk, contents: seq<string>, k: nat)
    requires WellFormed(d, contents) && FirstFault(e, |contents|, k)
    ensures Torn(e, d, contents) <==>
              && (exists i | 0 <= i < |contents| :: EndsAs(e, d, contents, k, i) != d.targets[i])
              && (exists i | 0 <= i < |contents| :: EndsAs(e, d, contents, k, i) != Holds(contents[i]))
  {
    var after := Transaction(e, d, contents).0.targets;
    forall i | 0 <= i < |contents|
      ensures after[i] == EndsAs(e, d, contents, k, i)
    {
      TargetsExactly(e, d, contents, k, i);
    }
    var new_ := Mixed(d.targets, contents, |contents|);
    assert after != d.targets <==> exists i | 0 <= i < |contents| :: after[i] != d.targets[i];
    assert after != new_ <==> exists i | 0 <= i < |contents| :: after[i] != new_[i];
  }

  /**
    When every file is to change: the targets are torn exactly when a replacement after the first is interrupted, or one
    fails and putting an earlier file back is interrupted before the first file, or leaves something else there.
  */
  lemma TornByFaults(e: Environment, d: Disk, contents: seq<string>, k: nat)
    requires WellFormed(d, contents) && FirstFault(e, |contents|, k)
    requires forall i | 0 <= i < |contents| :: d.targets[i] != Holds(contents[i])
    ensures Torn(e, d, contents) <==>
              && AllPrepared(e, d.targets) && 0 < k < |contents|
              && (|| e.replace(k).Interrupt?
                  || (exists j | 0 < j < k :: e.restore(j).Interrupt?)
                  || (exists i | 0 <= i < k :: LeavesOther(e, d, k, i)))
  {
    TornExactly(e, d, contents, k);
    if AllPrepared(e, d.targets) && 0 < k < |contents| {
      assert EndsAs(e, d, contents, k, k) == d.targets[k];
      if !e.replace(k).Interrupt? {
        if j :| 0 < j < k && e.restore(j).Interrupt? {
          assert InterruptedAbove(e, 0, k);
          assert EndsAs(e, d, contents, k, 0) == Holds(contents[0]);
        } else {
          forall i | 0 <= i < k
            ensures EndsAs(e, d, contents, k, i) != d.targets[i] <==> LeavesOther(e, d, k, i)
          {
          }
        }
      } else {
        assert EndsAs(e, d, contents, k, 0) == Holds(contents[0]);
      }
    }
  }

  /** Putting the i-th file back was reached and left something else there. */
  ghost predicate LeavesOther(e: Environment, d: Disk, k: nat, i: nat)
    requires i < |d.targets|
  {
    e.restore(i) != Fine && e.restore(i).leaves != d.targets[i] && !InterruptedAbove(e, i, k)
  }

  /** The files can end up neither all old nor all new only through an interrupt or a reported recovery error. */
  lemma MixedOnlyIfReported(e: Environment, d: Disk, contents: seq<string>)
    requires WellFormed(d, contents)
    ensures var (after, outcome) := Transaction(e, d, contents);
            || after.targets == d.targets
            || after.targets == Mixed(d.targets, contents, |contents|)
            || outcome == Interrupted || outcome == RecoveryFailed
  {
    var (after, outcome) := Transaction(e, d, contents);
    if outcome == Failed { FailureRestoresEverything(e, d, contents); }
    if outcome == Saved {
      SuccessReplacesEverything(e, d, contents);
      assert after.targets == Mixed(d.targets, contents, |contents|);
    }
  }

  /** And an interrupt does it: when it comes instead of the second replacement, the first file is new and the second old. */
  lemma InterruptLeavesMixed(old0: string, old1: string, new0: string, new1: string)
    ensures var fine := (i: nat) => Fine;
            var e := Environment(fine, fine, (i: nat) => if i == 1 then Interrupt(Absent) else Fine, fine);
            var d := Disk([Holds(old0), Holds(old1)], [Absent, Absent]);
            Transaction(e, d, [new0, new1]) ==
              (Disk([Holds(new0), Holds(old1)], [Holds(old0), Holds(old1)]), Interrupted)
  {
    var fine := (i: nat) => Fine;
    var e := Environment(fine, fine, (i: nat) => if i == 1 then Interrupt(Absent) else Fine, fine);
    var d := Disk([Holds(old0), Holds(old1)], [Absent, Absent]);
    BackupsHoldOld(e, d.targets, d.backups, 0);
    var once, twice := [Holds(old0), Absent], [Holds(old0), Holds(old1)];
    assert d.backups[0 := Holds(old0)] == once && once[1 := Holds(old1)] == twice;
    assert CopyBackups(e, d.targets, twice, 2) == (twice, Fine);
    assert CopyBackups(e, d.targets, once, 1) == (twice, Fine);
    assert CopyBackups(e, d.targets, d.backups, 0) == (twice, Fine);
    assert ReplacedUntil(e, 2, 0) == ReplacedUntil(e, 2, 1) == (1, Interrupt(Absent));
    assert Mixed(d.targets, [new0, new1], 1) == [Holds(new0), Holds(old1)];
  }

  // ----- the state itself

  /** The state in memory, its two files and their backups. */
  class PDState {
    var state: string
    var targets: seq<File>
    var backups: seq<File>

    ghost predicate Valid()
      reads this
    {
      |targets| == |backups| == 2
    }

    ghost function View(): Disk
      reads this
    {
      Disk(targets, backups)
    }

    constructor (state: string, targets: seq<File>, backups: seq<File>)
      requires |targets| == |backups| == 2
      ensures Valid() && this.state == state && View() == Disk(targets, backups)
    {
      this.state, this.targets, this.backups := state, targets, backups;
    }

    /** Put back the first `k` files in reverse order. */
    method RestoreReplaced(e: Environment, existed: seq<bool>, k: nat) returns (outcome: Outcome)
      requires Valid() && k <= 2 && |existed| == 2
      modifies this`targets
      ensures Valid() && (targets, outcome) == Restore(e, old(targets), backups, existed, k)
    {
      var j := k;
      var failed := false;
      while j > 0
        invariant 0 <= j <= k && Valid()
        invariant var (after, outcome) := Restore(e, targets, backups, existed, j);
                  Restore(e, old(targets), backups, existed, k) ==
                    (after, if outcome == Failed && failed then RecoveryFailed else outcome)
      {
        j := j - 1;
        if existed[j] && backups[j] == Absent {
          assert targets == targets[j := targets[j]];
          failed := true;
        } else {
          match e.restore(j) {
            case Fine => targets := targets[j := if existed[j] then backups[j] else Absent];
            case Fails(leaves) =>
              targets := targets[j := leaves];
              failed := true;
            case Interrupt(leaves) =>
              targets := targets[j := leaves];
              return Interrupted;
          }
        }
      }
      outcome := if failed then RecoveryFailed else Failed;
    }

    method WriteTransaction(e: Environment, contents: seq<string>) returns (outcome: Outcome)
      requires Valid() && |contents| == 2
      modifies this`targets, this`backups
      ensures Valid() && (View(), outcome) == Transaction(e, old(View()), contents)
    {
      var existed := [targets[0].Holds?, targets[1].Holds?];
      assert existed == Existed(targets);
      var i := 0;
      while i < 2
        invariant 0 <= i <= 2 && WriteTemporaries(e, 2, 0) == WriteTemporaries(e, 2, i)
      {
        if e.temporary(i) != Fine { return if e.temporary(i).Interrupt? then Interrupted else Failed; }
        i := i + 1;
      }
      i := 0;
      while i < 2
        invariant 0 <= i <= 2 && Valid() && targets == old(targets)
        invariant CopyBackups(e, targets, old(backups), 0) == CopyBackups(e, targets, backups, i)
      {
        if targets[i].Holds? {
          if e.backup(i) != Fine {
            backups := backups[i := e.backup(i).leaves];
            return if e.backup(i).Interrupt? then Interrupted else Failed;
          }
          backups := backups[i := targets[i]];
        }
        i := i + 1;
      }
      i := 0;
      ghost var copied := backups;
      assert targets == Mixed(old(targets), contents, 0);
      while i < 2
        invariant 0 <= i <= 2 && Valid() && backups == copied
        invariant targets == Mixed(old(targets), contents, i)
        invariant ReplacedUntil(e, 2, 0) == ReplacedUntil(e, 2, i)
      {
        if e.replace(i) != Fine {
          if e.replace(i).Interrupt? { return Interrupted; }
          outcome := RestoreReplaced(e, existed, i);
          return;
        }
        targets := targets[i := Holds(contents[i])];
        i := i + 1;
      }
      outcome := Saved;
    }

    /** Save a candidate state as its two texts; the state in memory changes only if both files were replaced. */
    method Save(e: Environment, candidate: string, contents: seq<string>, serializable: bool) returns (outcome: Outcome)
      requires Valid() && |contents| == 2
      modifies this
      ensures Valid()
      ensures if serializable then (View(), outcome) == Transaction(e, old(View()), contents)
              else View() == old(View()) && outcome == Failed
      ensures state == if outcome == Saved then candidate else old(state)
      ensures outcome == Failed ==> targets == old(targets)
    {
      if !serializable { return Failed; }
      outcome := WriteTransaction(e, contents);
      if outcome == Failed { FailureRestoresEverything(e, old(View()), contents); }
      if outcome == Saved { state := candidate; }
    }
  }
}
