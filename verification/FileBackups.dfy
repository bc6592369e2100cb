/**
  What an incomplete rollback leaves in the backups (zapret_core.py:809-829),
  and exactly when that is every previous content.
  */
module FileBackups {
  import opened Common
  import opened FileTransaction

  /** After an incomplete rollback the previous content of every file that existed is in its backup, whatever failed. */
  ghost predicate PreimagesKept(d: Disk, files: seq<Replacement>) {
    forall fails: Oracle, i :: 0 <= i < |files| && Transaction(fails, d, files).1 == Incomplete && files[i].path in d.files ==>
      Content(Transaction(fails, d, files).0.files, files[i].path + BACKUP) == Some(d.files[files[i].path])
  }

  /**
    The backup of file `i` is itself listed, as file `k`, and is not the last:
    once it has been replaced, a later replacement can fail. What the rollback
    leaves there is its new data if it cannot be undone, and its old content if
    only something else cannot, which takes a third file.
    */
  predicate AtRisk(before: map<Path, Bytes>, files: seq<Replacement>, i: nat, k: nat) {
    && i < |files| && k < |files| && files[i].path in before
    && files[k].path == files[i].path + BACKUP
    && k + 1 < |files|
    && (files[k].data != before[files[i].path]
        || (|files| >= 3 && Content(before, files[k].path) != Some(before[files[i].path])))
  }

  // ------------------------------------------------------- nothing is at risk

  /** Undoing a single replacement either restores the file or leaves it as it is. */
  lemma OneUndone(fails: Oracle, d: Disk, files: seq<Replacement>, previous: seq<Option<Bytes>>)
    requires 1 <= |files| == |previous|
    ensures var (d', failures) := RollBack(fails, d, files, previous, 1);
            failures > 0 ==> d'.files == d.files
  {
    var path := files[0].path;
    var (d1, ok) := if previous[0].None? then Remove(fails, d, path) else Write(fails, d, path, previous[0].value);
    assert RollBack(fails, d1, files, previous, 0) == (d1, 0);
  }

  /** The backup of a file, after `n` replacements were made and not all could be undone. */
  lemma BackupAfter(a: Disk, files: seq<Replacement>, previous: seq<Option<Bytes>>, fails: Oracle, k: nat, content: Bytes)
    requires Distinct(files) && |previous| == |files| && k < |files|
    requires Content(a.files, files[k].path) == Some(content)
    requires k + 1 < |files| ==> files[k].data == content && (|files| < 3 || previous[k] == Some(content))
    ensures var (b, n) := Replace(fails, a, files, 0);
            var (c, failures) := RollBack(fails, b, files, previous, n);
            n < |files| && failures > 0 ==> Content(c.files, files[k].path) == Some(content)
  {
    hide Replace, RollBack, Replaced, RolledBack, Distinct, Content;
    var (b, n) := Replace(fails, a, files, 0);
    ReplaceWrites(fails, a, files, 0);
    NewContents(a.files, b.files, files, n);
    var (c, failures) := RollBack(fails, b, files, previous, n);
    RollBackRestores(fails, b, files, previous, n);
    OneFile(a.files, b.files, c.files, files, previous, n, failures, k);
    if n == 1 {
      OneUndone(fails, b, files, previous);
    }
  }

  lemma SafeBackup(fails: Oracle, d: Disk, files: seq<Replacement>, i: nat)
    requires Distinct(files) && i < |files| && files[i].path in d.files && Transaction(fails, d, files).1 == Incomplete
    requires forall k :: !AtRisk(d.files, files, i, k)
    ensures Content(Transaction(fails, d, files).0.files, files[i].path + BACKUP) == Some(d.files[files[i].path])
  {
    hide ReadAll, BackUp, Replace, RollBack, IsBackup, Distinct, Harmless, Content, Replaced, RolledBack;
    var (d1, read) := ReadAll(fails, d, files, |files|);
    var previous := read.value;
    Stages(fails, d, files);
    var (d2, saved) := BackUp(fails, d1, files, previous, |files|);
    var q := files[i].path + BACKUP;
    if k :| 0 <= k < |files| && files[k].path == q {
      assert !AtRisk(d.files, files, i, k);
      BackupAfter(d2, files, previous, fails, k, d.files[files[i].path]);
    } else {
      var (d3, n) := Replace(fails, d2, files, 0);
      ReplaceWrites(fails, d2, files, 0);
      NewContents(d2.files, d3.files, files, n);
      var (d4, failures) := RollBack(fails, d3, files, previous, n);
      RollBackRestores(fails, d3, files, previous, n);
      OtherFile(d2.files, d3.files, d4.files, files, previous, n, failures, q);
    }
  }

  // --------------------------------------------------------- something is at risk

  lemma {:induction false} ReplacedUpTo(fails: Oracle, d: Disk, files: seq<Replacement>, k: nat, n: nat)
    requires k <= n < |files| && fails(d.calls + n - k)
    requires forall c :: d.calls <= c < d.calls + n - k ==> !fails(c)
    ensures Replace(fails, d, files, k).1 == n && Replace(fails, d, files, k).0.calls == d.calls + n - k + 1
    decreases n - k
  {
    if k < n {
      ReplacedUpTo(fails, Write(fails, d, files[k].path, files[k].data).0, files, k + 1, n);
    }
  }

  lemma {:induction false} NothingUndone(fails: Oracle, d: Disk, files: seq<Replacement>, previous: seq<Option<Bytes>>,
                                         n: nat)
    requires n <= |files| == |previous| && forall c :: d.calls <= c < d.calls + n ==> fails(c)
    ensures var (d', failures) := RollBack(fails, d, files, previous, n); d'.files == d.files && failures == n
    decreases n
  {
    if n > 0 {
      NothingUndone(fails, Tried(d), files, previous, n - 1);
    }
  }

  /** All undoing fails but for file `k`. */
  lemma {:induction false} OnlyUndone(fails: Oracle, d: Disk, files: seq<Replacement>, previous: seq<Option<Bytes>>,
                                      n: nat, k: nat)
    requires k < n <= |files| == |previous| && files[k].path in d.files
    requires forall c :: d.calls <= c < d.calls + n ==> (fails(c) <==> c != d.calls + n - 1 - k)
    ensures var (d', failures) := RollBack(fails, d, files, previous, n);
            Content(d'.files, files[k].path) == previous[k] && failures == n - 1
    decreases n
  {
    var path := files[n - 1].path;
    var d1 := if previous[n - 1].None? then Remove(fails, d, path).0 else Write(fails, d, path, previous[n - 1].value).0;
    if k == n - 1 {
      NothingUndone(fails, d1, files, previous, n - 1);
    } else {
      OnlyUndone(fails, d1, files, previous, n - 1, k);
    }
  }

  /** Reading and backing up go well, `n` files are replaced, and the rest is up to the oracle. */
  lemma FailsLate(fails: Oracle, d: Disk, files: seq<Replacement>, previous: seq<Option<Bytes>>, n: nat) returns (b: Disk)
    requires Distinct(files) && Previous(d.files, files, previous) && n < |files|
    requires var first := d.calls + |files| + Existing(previous, |files|);
             fails(first + n) && forall c :: d.calls <= c < first + n ==> !fails(c)
    ensures b.calls == d.calls + |files| + Existing(previous, |files|) + n + 1
    ensures forall k :: 0 <= k < n ==> files[k].path in b.files && Content(b.files, files[k].path) == Some(files[k].data)
    ensures var (c, failures) := RollBack(fails, b, files, previous, n);
            Transaction(fails, d, files) == (c, if failures > 0 then Incomplete else Reraised)
  {
    hide ReadAll, BackUp, Replace, RollBack, Existing, Distinct, Replaced, Content;
    ReadsSucceed(fails, d, files, |files|);
    var (d1, read) := ReadAll(fails, d, files, |files|);
    SamePrevious(d.files, files, read.value, previous);
    BackUpSucceeds(fails, d1, files, previous, |files|);
    var (d2, saved) := BackUp(fails, d1, files, previous, |files|);
    ReplacedUpTo(fails, d2, files, 0, n);
    ReplaceWrites(fails, d2, files, 0);
    b := Replace(fails, d2, files, 0).0;
    NewContents(d2.files, b.files, files, n);
  }

  lemma SamePrevious(before: map<Path, Bytes>, files: seq<Replacement>, p: seq<Option<Bytes>>, q: seq<Option<Bytes>>)
    requires |p| == |files| && (forall i :: 0 <= i < |files| ==> p[i] == Content(before, files[i].path))
    requires Previous(before, files, q)
    ensures p == q
  {
  }

  /** New data in a backup stays there if the next replacement fails and nothing can be undone. */
  lemma NewDataInBackup(d: Disk, files: seq<Replacement>, i: nat, k: nat)
    requires Distinct(files) && AtRisk(d.files, files, i, k) && files[k].data != d.files[files[i].path]
    ensures !PreimagesKept(d, files)
  {
    hide Transaction, RollBack, Existing, Distinct;
    var previous := seq(|files|, k requires 0 <= k < |files| => Content(d.files, files[k].path));
    var last := d.calls + |files| + Existing(previous, |files|) + k + 1;
    var fails: Oracle := c => c >= last;
    var b := FailsLate(fails, d, files, previous, k + 1);
    NothingUndone(fails, b, files, previous, k + 1);
    assert Content(Transaction(fails, d, files).0.files, files[i].path + BACKUP) == Some(files[k].data);
  }

  /** Old content comes back into a backup if its replacement is undone and another cannot be. */
  lemma OldContentInBackup(d: Disk, files: seq<Replacement>, i: nat, k: nat)
    requires Distinct(files) && AtRisk(d.files, files, i, k)
    requires |files| >= 3 && Content(d.files, files[k].path) != Some(d.files[files[i].path])
    ensures !PreimagesKept(d, files)
  {
    hide Transaction, RollBack, Existing, Distinct;
    var previous := seq(|files|, k requires 0 <= k < |files| => Content(d.files, files[k].path));
    var n := if k == 0 then 2 else k + 1;
    var last := d.calls + |files| + Existing(previous, |files|) + n;
    var fails: Oracle := c => c >= last && c != last + n - k;
    var b := FailsLate(fails, d, files, previous, n);
    OnlyUndone(fails, b, files, previous, n, k);
    assert Content(Transaction(fails, d, files).0.files, files[i].path + BACKUP) == previous[k];
  }

  /** An incomplete rollback leaves every previous content in its backup exactly when no listed backup is at risk. */
  lemma PreimagesKeptExactly(d: Disk, files: seq<Replacement>)
    requires Distinct(files)
    ensures PreimagesKept(d, files) <==> forall i, k :: !AtRisk(d.files, files, i, k)
  {
    hide Transaction, AtRisk, Distinct;
    if i, k :| AtRisk(d.files, files, i, k) {
      RiskIsReal(d, files, i, k);
    } else {
      forall fails: Oracle, i | 0 <= i < |files| && Transaction(fails, d, files).1 == Incomplete && files[i].path in d.files
        ensures Content(Transaction(fails, d, files).0.files, files[i].path + BACKUP) == Some(d.files[files[i].path])
      {
        SafeBackup(fails, d, files, i);
      }
    }
  }

  lemma RiskIsReal(d: Disk, files: seq<Replacement>, i: nat, k: nat)
    requires Distinct(files) && AtRisk(d.files, files, i, k)
    ensures !PreimagesKept(d, files)
  {
    hide PreimagesKept, Distinct;
    if files[k].data != d.files[files[i].path] {
      NewDataInBackup(d, files, i, k);
    } else {
      OldContentInBackup(d, files, i, k);
    }
  }

  /** The backup of a listed file, listed before another file, can be lost; listed last it cannot. */
  lemma OrderMatters()
    ensures var d, file, backup := Disk(map["a" := [1]], 0), Replacement("a", [3]), Replacement("a.backup", [4]);
            PreimagesKept(d, [file, backup]) && !PreimagesKept(d, [backup, file])
  {
    var d, file, backup := Disk(map["a" := [1]], 0), Replacement("a", [3]), Replacement("a.backup", [4]);
    assert "a" + BACKUP == "a.backup" && |"a"| != |"a.backup"|;
    PreimagesKeptExactly(d, [file, backup]);
    PreimagesKeptExactly(d, [backup, file]);
    assert AtRisk(d.files, [backup, file], 1, 0);
  }
}
