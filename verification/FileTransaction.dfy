/**
  Replacing several files or none (zapret_core.py:800-829), with a fault oracle
  at every read, write and removal.
  */
module FileTransaction {
  import opened Common

  type Path = string

  const BACKUP: string := ".backup"

  /** The disk and how many operations have been tried; the oracle says which of them fail, without effect. */
  datatype Disk = Disk(files: map<Path, Bytes>, calls: nat)

  type Oracle = nat -> bool

  datatype Replacement = Replacement(path: Path, data: Bytes)

  predicate Distinct(files: seq<Replacement>) { forall i, j :: 0 <= i < j < |files| ==> files[i].path != files[j].path }

  function Tried(d: Disk): Disk { d.(calls := d.calls + 1) }

  /** `_atomic_write`: all of the new content or, on an error, all of the old. */
  function Write(fails: Oracle, d: Disk, path: Path, data: Bytes): (Disk, bool) {
    if fails(d.calls) then (Tried(d), false) else (Tried(d.(files := d.files[path := data])), true)
  }

  /** `os.remove`, which also fails for a file that is not there. */
  function Remove(fails: Oracle, d: Disk, path: Path): (Disk, bool) {
    if fails(d.calls) || path !in d.files then (Tried(d), false) else (Tried(d.(files := d.files - {path})), true)
  }

  function Content(files: map<Path, Bytes>, path: Path): Option<Bytes> {
    if path in files then Some(files[path]) else None
  }

  /** The previous contents of the first `n` files; `None` if one of them cannot be read. */
  function ReadAll(fails: Oracle, d: Disk, files: seq<Replacement>, n: nat): (r: (Disk, Option<seq<Option<Bytes>>>))
    requires n <= |files|
    ensures r.0.files == d.files
    ensures r.1.Some? ==> |r.1.value| == n && forall i :: 0 <= i < n ==> r.1.value[i] == Content(d.files, files[i].path)
  {
    if n == 0 then (d, Some([]))
    else
      var (d1, earlier) := ReadAll(fails, d, files, n - 1);
      if earlier.None? then (d1, None)
      else if fails(d1.calls) then (Tried(d1), None)
      else (Tried(d1), Some(earlier.value + [Content(d1.files, files[n - 1].path)]))
  }

  /** Backups of the first `n` files, if all writes succeed. */
  function BackUp(fails: Oracle, d: Disk, files: seq<Replacement>, previous: seq<Option<Bytes>>, n: nat): (Disk, bool)
    requires n <= |files| == |previous|
  {
    if n == 0 then (d, true)
    else
      var (d1, ok) := BackUp(fails, d, files, previous, n - 1);
      if !ok || previous[n - 1].None? then (d1, ok)
      else Write(fails, d1, files[n - 1].path + BACKUP, previous[n - 1].value)
  }

  /** Replacing from file `k` on, up to the first failure; the number of files replaced. */
  function Replace(fails: Oracle, d: Disk, files: seq<Replacement>, k: nat): (r: (Disk, nat))
    requires k <= |files|
    ensures k <= r.1 <= |files|
    decreases |files| - k
  {
    if k == |files| then (d, k)
    else
      var (d1, ok) := Write(fails, d, files[k].path, files[k].data);
      if ok then Replace(fails, d1, files, k + 1) else (d1, k)
  }

  /** Undoing the first `n` replacements, the last first; how many could not be undone. */
  function RollBack(fails: Oracle, d: Disk, files: seq<Replacement>, previous: seq<Option<Bytes>>, n: nat): (Disk, nat)
    requires n <= |files| == |previous|
    decreases n
  {
    if n == 0 then (d, 0)
    else
      var path := files[n - 1].path;
      var (d1, ok) := if previous[n - 1].None? then Remove(fails, d, path) else Write(fails, d, path, previous[n - 1].value);
      var (d2, failures) := RollBack(fails, d1, files, previous, n - 1);
      (d2, failures + if ok then 0 else 1)
  }

  /** Done, or failed with the error raised again, or failed with an incomplete rollback. */
  datatype Outcome = Done | Reraised | Incomplete

  /** `_write_transaction`. */
  function Transaction(fails: Oracle, d: Disk, files: seq<Replacement>): (Disk, Outcome) {
    var (d1, read) := ReadAll(fails, d, files, |files|);
    if read.None? then (d1, Reraised)
    else
      var (d2, saved) := BackUp(fails, d1, files, read.value, |files|);
      if !saved then (d2, Reraised)
      else
        var (d3, n) := Replace(fails, d2, files, 0);
        if n == |files| then (d3, Done)
        else
          var (d4, failures) := RollBack(fails, d3, files, read.value, n);
          (d4, if failures > 0 then Incomplete else Reraised)
  }

  // -------------------------------------------------------------- preliminaries

  predicate Listed(files: seq<Replacement>, path: Path) { exists i :: 0 <= i < |files| && files[i].path == path }

  /** Paths the backups of existing files are written to. */
  predicate IsBackup(before: map<Path, Bytes>, files: seq<Replacement>, path: Path) {
    exists i :: 0 <= i < |files| && files[i].path in before && files[i].path + BACKUP == path
  }

  /** A backup written over a listed file changes nothing. */
  predicate Harmless(before: map<Path, Bytes>, files: seq<Replacement>) {
    forall i :: 0 <= i < |files| && files[i].path in before && Listed(files, files[i].path + BACKUP) ==>
                  Content(before, files[i].path + BACKUP) == Some(before[files[i].path])
  }

  lemma BackupsDiffer(p: Path, q: Path)
    ensures p + BACKUP == q + BACKUP ==> p == q
  {
    assert p == (p + BACKUP)[..|p + BACKUP| - |BACKUP|];
    assert q == (q + BACKUP)[..|q + BACKUP| - |BACKUP|];
  }

  ghost predicate Previous(before: map<Path, Bytes>, files: seq<Replacement>, previous: seq<Option<Bytes>>) {
    |previous| == |files| && forall i :: 0 <= i < |files| ==> previous[i] == Content(before, files[i].path)
  }

  /** Backing up writes the old contents beside the files and nothing else; if it succeeds, all of them. */
  lemma {:induction false} BackUpWrites(fails: Oracle, d: Disk, files: seq<Replacement>, previous: seq<Option<Bytes>>, n: nat)
    requires Previous(d.files, files, previous) && n <= |files|
    ensures var (d', ok) := BackUp(fails, d, files, previous, n);
            && (forall q :: !IsBackup(d.files, files, q) ==> Content(d'.files, q) == Content(d.files, q))
            && (forall q :: q in d'.files && Content(d'.files, q) != Content(d.files, q) ==>
                  exists i :: 0 <= i < |files| && files[i].path in d.files && files[i].path + BACKUP == q
                              && d'.files[q] == d.files[files[i].path])
            && (forall q :: q in d.files ==> q in d'.files)
            && (ok ==> forall i :: 0 <= i < n && files[i].path in d.files ==>
                         Content(d'.files, files[i].path + BACKUP) == Some(d.files[files[i].path]))
  {
    if n > 0 {
      BackUpWrites(fails, d, files, previous, n - 1);
      var path := files[n - 1].path;
      if previous[n - 1].Some? {
        forall i | 0 <= i < n - 1 && files[i].path + BACKUP == path + BACKUP ensures files[i].path == path {
          BackupsDiffer(files[i].path, path);
        }
      }
    }
  }

  /** With no harm done by the backups, the listed files are still as they were. */
  lemma BackUpKeepsListed(before: map<Path, Bytes>, now: map<Path, Bytes>, files: seq<Replacement>, q: Path)
    requires forall q :: !IsBackup(before, files, q) ==> Content(now, q) == Content(before, q)
    requires forall q :: q in now && Content(now, q) != Content(before, q) ==>
               exists i :: 0 <= i < |files| && files[i].path in before && files[i].path + BACKUP == q
                           && now[q] == before[files[i].path]
    requires forall q :: q in before ==> q in now
    requires Harmless(before, files) && Listed(files, q)
    ensures Content(now, q) == Content(before, q)
  {
  }

  /** Files `k` to `n` have their new content, everything else is untouched. */
  ghost predicate Replaced(before: map<Path, Bytes>, now: map<Path, Bytes>, files: seq<Replacement>, k: nat, n: nat)
    requires k <= n <= |files|
  {
    && (forall i :: k <= i < n ==> Content(now, files[i].path) == Some(files[i].data))
    && (forall q :: (forall i :: k <= i < n ==> files[i].path != q) ==> Content(now, q) == Content(before, q))
  }

  lemma {:induction false} ReplaceWrites(fails: Oracle, d: Disk, files: seq<Replacement>, k: nat)
    requires Distinct(files) && k <= |files|
    ensures var (d', n) := Replace(fails, d, files, k); Replaced(d.files, d'.files, files, k, n)
    decreases |files| - k
  {
    if k < |files| {
      var (d1, ok) := Write(fails, d, files[k].path, files[k].data);
      if ok {
        ReplaceWrites(fails, d1, files, k + 1);
      }
    }
  }

  /** Each of the first `n` files is restored or left; without failures all are restored; the rest is untouched. */
  ghost predicate RolledBack(before: map<Path, Bytes>, now: map<Path, Bytes>, files: seq<Replacement>,
                             previous: seq<Option<Bytes>>, n: nat, failures: nat)
    requires n <= |files| == |previous|
  {
    && (forall i :: 0 <= i < n ==> Content(now, files[i].path) == previous[i]
                                   || Content(now, files[i].path) == Content(before, files[i].path))
    && (failures == 0 ==> forall i :: 0 <= i < n ==> Content(now, files[i].path) == previous[i])
    && (forall q :: (forall i :: 0 <= i < n ==> files[i].path != q) ==> Content(now, q) == Content(before, q))
  }

  lemma {:induction false} RollBackRestores(fails: Oracle, d: Disk, files: seq<Replacement>, previous: seq<Option<Bytes>>, n: nat)
    requires Distinct(files) && n <= |files| == |previous|
    requires forall i :: 0 <= i < n ==> files[i].path in d.files
    ensures var (d', failures) := RollBack(fails, d, files, previous, n);
            RolledBack(d.files, d'.files, files, previous, n, failures)
    decreases n
  {
    if n > 0 {
      var path := files[n - 1].path;
      var d1 := if previous[n - 1].None? then Remove(fails, d, path).0 else Write(fails, d, path, previous[n - 1].value).0;
      RollBackRestores(fails, d1, files, previous, n - 1);
    }
  }

  // ------------------------------------------------------- which operations fail

  /** None of the operations from number `first` on, and before number `after`, fails. */
  ghost predicate NoneFails(fails: Oracle, first: nat, after: nat) { forall n :: first <= n < after ==> !fails(n) }

  lemma NoneFailsFurther(fails: Oracle, first: nat, middle: nat, after: nat)
    requires first <= middle <= after
    ensures NoneFails(fails, first, after) <==> NoneFails(fails, first, middle) && NoneFails(fails, middle, after)
    ensures NoneFails(fails, first, first)
    ensures NoneFails(fails, first, first + 1) <==> !fails(first)
  {
    if NoneFails(fails, first, middle) && NoneFails(fails, middle, after) {
      forall n | first <= n < after ensures !fails(n) {
        if n < middle {
        } else {
        }
      }
    }
  }

  lemma {:induction false} ReadingFails(fails: Oracle, d: Disk, files: seq<Replacement>, n: nat)
    requires n <= |files|
    ensures var (d', read) := ReadAll(fails, d, files, n);
            d'.calls >= d.calls && (read.Some? <==> NoneFails(fails, d.calls, d'.calls))
            && (read.Some? ==> d'.calls == d.calls + n)
  {
    hide NoneFails;
    NoneFailsFurther(fails, d.calls, d.calls, d.calls);
    if n > 0 {
      ReadingFails(fails, d, files, n - 1);
      var d1 := ReadAll(fails, d, files, n - 1).0;
      NoneFailsFurther(fails, d.calls, d1.calls, d1.calls + 1);
      NoneFailsFurther(fails, d1.calls, d1.calls, d1.calls + 1);
    }
  }

  lemma {:induction false} BackingUpFails(fails: Oracle, d: Disk, files: seq<Replacement>, previous: seq<Option<Bytes>>, n: nat)
    requires n <= |files| == |previous|
    ensures var (d', ok) := BackUp(fails, d, files, previous, n);
            d'.calls >= d.calls && (ok <==> NoneFails(fails, d.calls, d'.calls))
  {
    hide NoneFails;
    NoneFailsFurther(fails, d.calls, d.calls, d.calls);
    if n > 0 {
      BackingUpFails(fails, d, files, previous, n - 1);
      var d1 := BackUp(fails, d, files, previous, n - 1).0;
      NoneFailsFurther(fails, d.calls, d1.calls, d1.calls + 1);
      NoneFailsFurther(fails, d1.calls, d1.calls, d1.calls + 1);
    }
  }

  lemma {:induction false} ReplacingFails(fails: Oracle, d: Disk, files: seq<Replacement>, k: nat)
    requires k <= |files|
    ensures var (d', n) := Replace(fails, d, files, k);
            d'.calls >= d.calls && (n == |files| <==> NoneFails(fails, d.calls, d'.calls))
    decreases |files| - k
  {
    hide NoneFails;
    NoneFailsFurther(fails, d.calls, d.calls, d.calls);
    if k < |files| {
      NoneFailsFurther(fails, d.calls, d.calls, d.calls + 1);
      var (d1, ok) := Write(fails, d, files[k].path, files[k].data);
      if ok {
        ReplacingFails(fails, d1, files, k + 1);
        NoneFailsFurther(fails, d.calls, d1.calls, Replace(fails, d1, files, k + 1).0.calls);
      }
    }
  }

  /**
    Rolling back tries every file, whatever fails in between: operation number
    `n - 1 - i` is for file `i`, which is restored if that one does not fail, and
    keeps its new content if it does.
    */
  lemma {:induction false} RollBackTriesEach(
    fails: Oracle, d: Disk, files: seq<Replacement>, previous: seq<Option<Bytes>>, n: nat)
    requires Distinct(files) && n <= |files| == |previous|
    requires forall i :: 0 <= i < n ==> files[i].path in d.files
    ensures var d' := RollBack(fails, d, files, previous, n).0;
            && d'.calls == d.calls + n
            && forall i :: 0 <= i < n ==>
                 Content(d'.files, files[i].path) ==
                 if fails(d.calls + n - 1 - i) then Content(d.files, files[i].path) else previous[i]
    decreases n
  {
    if n > 0 {
      var path := files[n - 1].path;
      var d1 := if previous[n - 1].None? then Remove(fails, d, path).0 else Write(fails, d, path, previous[n - 1].value).0;
      UndoingOne(fails, d, files, previous, n);
      RollBackTriesEach(fails, d1, files, previous, n - 1);
      LaterUndosLeave(fails, d1, files, previous, n);
    }
  }

  lemma UndoingOne(fails: Oracle, d: Disk, files: seq<Replacement>, previous: seq<Option<Bytes>>, n: nat)
    requires Distinct(files) && 0 < n <= |files| == |previous|
    requires forall i :: 0 <= i < n ==> files[i].path in d.files
    ensures var path := files[n - 1].path;
            var d1 := if previous[n - 1].None? then Remove(fails, d, path).0 else Write(fails, d, path, previous[n - 1].value).0;
            && d1.calls == d.calls + 1
            && Content(d1.files, path) == (if fails(d.calls) then Content(d.files, path) else previous[n - 1])
            && forall i :: 0 <= i < n - 1 ==>
                 files[i].path in d1.files && Content(d1.files, files[i].path) == Content(d.files, files[i].path)
  {
    forall i | 0 <= i < n - 1 ensures files[i].path != files[n - 1].path {
    }
  }

  lemma LaterUndosLeave(fails: Oracle, d: Disk, files: seq<Replacement>, previous: seq<Option<Bytes>>, n: nat)
    requires Distinct(files) && 0 < n <= |files| == |previous|
    requires forall i :: 0 <= i < n - 1 ==> files[i].path in d.files
    ensures Content(RollBack(fails, d, files, previous, n - 1).0.files, files[n - 1].path) == Content(d.files, files[n - 1].path)
  {
    hide RollBack;
    RollBackRestores(fails, d, files, previous, n - 1);
    assert forall i :: 0 <= i < n - 1 ==> files[i].path != files[n - 1].path;
  }

  /** Nothing is reported as not restored exactly when no operation of the rollback fails. */
  lemma {:induction false} RollBackReportsFailures(
    fails: Oracle, d: Disk, files: seq<Replacement>, previous: seq<Option<Bytes>>, n: nat)
    requires Distinct(files) && n <= |files| == |previous|
    requires forall i :: 0 <= i < n ==> files[i].path in d.files
    ensures RollBack(fails, d, files, previous, n).1 == 0 <==> NoneFails(fails, d.calls, d.calls + n)
    decreases n
  {
    hide NoneFails;
    NoneFailsFurther(fails, d.calls, d.calls, d.calls);
    if n > 0 {
      var path := files[n - 1].path;
      var d1 := if previous[n - 1].None? then Remove(fails, d, path).0 else Write(fails, d, path, previous[n - 1].value).0;
      RollBackReportsFailures(fails, d1, files, previous, n - 1);
      NoneFailsFurther(fails, d.calls, d.calls + 1, d.calls + n);
    }
  }

  /** The transaction succeeds exactly when none of the operations it tries fails. */
  lemma DoneExactlyWhenNothingFails(fails: Oracle, d: Disk, files: seq<Replacement>)
    ensures var (d', outcome) := Transaction(fails, d, files);
            d'.calls >= d.calls && (outcome == Done <==> NoneFails(fails, d.calls, d'.calls))
  {
    hide NoneFails, ReadAll, BackUp, Replace, RollBack;
    var (d1, read) := ReadAll(fails, d, files, |files|);
    ReadingFails(fails, d, files, |files|);
    if read.Some? {
      var (d2, saved) := BackUp(fails, d1, files, read.value, |files|);
      BackingUpFails(fails, d1, files, read.value, |files|);
      NoneFailsFurther(fails, d.calls, d1.calls, d2.calls);
      if saved {
        var (d3, n) := Replace(fails, d2, files, 0);
        ReplacingFails(fails, d2, files, 0);
        NoneFailsFurther(fails, d.calls, d2.calls, d3.calls);
        if n < |files| {
          RollBackCounts(fails, d3, files, read.value, n);
          NoneFailsFurther(fails, d.calls, d3.calls, RollBack(fails, d3, files, read.value, n).0.calls);
        }
      }
    }
  }

  lemma {:induction false} RollBackCounts(fails: Oracle, d: Disk, files: seq<Replacement>, previous: seq<Option<Bytes>>, n: nat)
    requires n <= |files| == |previous|
    ensures RollBack(fails, d, files, previous, n).0.calls == d.calls + n
    decreases n
  {
    if n > 0 {
      var path := files[n - 1].path;
      var d1 := if previous[n - 1].None? then Remove(fails, d, path).0 else Write(fails, d, path, previous[n - 1].value).0;
      RollBackCounts(fails, d1, files, previous, n - 1);
    }
  }

  // ------------------------------------------------------------------ theorems

  ghost predicate Unchanged(before: map<Path, Bytes>, now: map<Path, Bytes>, files: seq<Replacement>) {
    forall q :: Listed(files, q) ==> Content(now, q) == Content(before, q)
  }

  /** What the files look like after a transaction that got as far as replacing. */
  lemma Stages(fails: Oracle, d: Disk, files: seq<Replacement>)
    requires Distinct(files)
    ensures var (d1, read) := ReadAll(fails, d, files, |files|);
            read.Some? ==>
              var (d2, saved) := BackUp(fails, d1, files, read.value, |files|);
              && (forall q :: !IsBackup(d.files, files, q) ==> Content(d2.files, q) == Content(d.files, q))
              && (Harmless(d.files, files) ==> Unchanged(d.files, d2.files, files))
              && (saved ==> forall i :: 0 <= i < |files| && files[i].path in d.files ==>
                    Content(d2.files, files[i].path + BACKUP) == Some(d.files[files[i].path]))
  {
    hide ReadAll, BackUp, IsBackup, Listed;
    var (d1, read) := ReadAll(fails, d, files, |files|);
    if read.Some? {
      BackUpWrites(fails, d1, files, read.value, |files|);
      var d2 := BackUp(fails, d1, files, read.value, |files|).0;
      if Harmless(d.files, files) {
        forall q | Listed(files, q) ensures Content(d2.files, q) == Content(d.files, q) {
          BackUpKeepsListed(d.files, d2.files, files, q);
        }
      }
    }
  }

  /** One file after replacing `n` files and undoing that. */
  lemma OneFile(a: map<Path, Bytes>, b: map<Path, Bytes>, c: map<Path, Bytes>, files: seq<Replacement>,
                previous: seq<Option<Bytes>>, n: nat, failures: nat, i: nat)
    requires Distinct(files) && |previous| == |files| && n <= |files| && i < |files|
    requires Replaced(a, b, files, 0, n) && RolledBack(b, c, files, previous, n, failures)
    ensures if i >= n then Content(c, files[i].path) == Content(a, files[i].path)
            else || Content(c, files[i].path) == previous[i]
                 || (failures > 0 && Content(c, files[i].path) == Some(files[i].data))
  {
    if i >= n {
      assert Content(b, files[i].path) == Content(a, files[i].path);
    }
  }

  lemma OtherFile(a: map<Path, Bytes>, b: map<Path, Bytes>, c: map<Path, Bytes>, files: seq<Replacement>,
                  previous: seq<Option<Bytes>>, n: nat, failures: nat, q: Path)
    requires |previous| == |files| && n <= |files| && !Listed(files, q)
    requires Replaced(a, b, files, 0, n) && RolledBack(b, c, files, previous, n, failures)
    ensures Content(b, q) == Content(a, q) && Content(c, q) == Content(a, q)
  {
  }

  /**
    Whatever fails: on success every file has its new content; on an error that
    is raised again every file is as before, and after an incomplete rollback
    every file is old or new, if no backup overwrote one. No other file is touched.
    */
  lemma AllOrNothing(fails: Oracle, d: Disk, files: seq<Replacement>)
    requires Distinct(files)
    ensures var (d', outcome) := Transaction(fails, d, files);
            && (forall q :: !Listed(files, q) && !IsBackup(d.files, files, q) ==> Content(d'.files, q) == Content(d.files, q))
            && (outcome == Done ==>
                  forall i :: 0 <= i < |files| ==> Content(d'.files, files[i].path) == Some(files[i].data))
            && (outcome == Reraised && Harmless(d.files, files) ==> Unchanged(d.files, d'.files, files))
            && (outcome == Incomplete && Harmless(d.files, files) ==>
                  forall i :: 0 <= i < |files| ==>
                    || Content(d'.files, files[i].path) == Content(d.files, files[i].path)
                    || Content(d'.files, files[i].path) == Some(files[i].data))
  {
    hide ReadAll, BackUp, Replace, RollBack, IsBackup, Distinct, Replaced, RolledBack, Content;
    var (d1, read) := ReadAll(fails, d, files, |files|);
    Stages(fails, d, files);
    if read.Some? {
      var previous := read.value;
      var d2 := BackUp(fails, d1, files, previous, |files|).0;
      var (d3, n) := Replace(fails, d2, files, 0);
      ReplaceWrites(fails, d2, files, 0);
      NewContents(d2.files, d3.files, files, n);
      var (d4, failures) := RollBack(fails, d3, files, previous, n);
      RollBackRestores(fails, d3, files, previous, n);
      forall q | !Listed(files, q) ensures Content(d3.files, q) == Content(d2.files, q) == Content(d4.files, q) {
        OtherFile(d2.files, d3.files, d4.files, files, previous, n, failures, q);
      }
      forall i | 0 <= i < |files|
        ensures Listed(files, files[i].path)
        ensures if i >= n then Content(d4.files, files[i].path) == Content(d2.files, files[i].path)
                else || Content(d4.files, files[i].path) == previous[i]
                     || (failures > 0 && Content(d4.files, files[i].path) == Some(files[i].data))
      {
        OneFile(d2.files, d3.files, d4.files, files, previous, n, failures, i);
      }
    }
  }

  lemma NewContents(a: map<Path, Bytes>, b: map<Path, Bytes>, files: seq<Replacement>, n: nat)
    requires n <= |files| && Replaced(a, b, files, 0, n)
    ensures forall i :: 0 <= i < n ==> files[i].path in b && Content(b, files[i].path) == Some(files[i].data)
  {
    forall i | 0 <= i < n ensures files[i].path in b {
      assert Content(b, files[i].path) == Some(files[i].data);
    }
  }

  // ------------------------------------------------- when the promise is kept

  /** Raising the error again means all files are as before, whatever fails. */
  ghost predicate NeverTorn(d: Disk, files: seq<Replacement>) {
    forall fails: Oracle :: Transaction(fails, d, files).1 == Reraised ==>
                              Unchanged(d.files, Transaction(fails, d, files).0.files, files)
  }

  lemma {:induction false} ReadsSucceed(fails: Oracle, d: Disk, files: seq<Replacement>, n: nat)
    requires n <= |files| && forall c :: d.calls <= c < d.calls + n ==> !fails(c)
    ensures var (d', read) := ReadAll(fails, d, files, n); read.Some? && d'.calls == d.calls + n
  {
    if n > 0 {
      ReadsSucceed(fails, d, files, n - 1);
    }
  }

  function Existing(previous: seq<Option<Bytes>>, n: nat): nat
    requires n <= |previous|
  {
    if n == 0 then 0 else Existing(previous, n - 1) + if previous[n - 1].Some? then 1 else 0
  }

  lemma {:induction false} BackUpSucceeds(fails: Oracle, d: Disk, files: seq<Replacement>, previous: seq<Option<Bytes>>, n: nat)
    requires n <= |files| == |previous|
    requires forall c :: d.calls <= c < d.calls + Existing(previous, n) ==> !fails(c)
    ensures var (d', ok) := BackUp(fails, d, files, previous, n); ok && d'.calls == d.calls + Existing(previous, n)
  {
    if n > 0 {
      BackUpSucceeds(fails, d, files, previous, n - 1);
    }
  }

  /** Failing only at the first replacement leaves behind what the backups have overwritten. */
  lemma FirstReplacementFails(d: Disk, files: seq<Replacement>, previous: seq<Option<Bytes>>, fails: Oracle)
    requires files != [] && Previous(d.files, files, previous)
    requires fails == (c => c == d.calls + |files| + Existing(previous, |files|))
    ensures var (d', outcome) := Transaction(fails, d, files);
            && outcome == Reraised
            && forall i :: 0 <= i < |files| && files[i].path in d.files ==>
                 Content(d'.files, files[i].path + BACKUP) == Some(d.files[files[i].path])
  {
    hide ReadAll, BackUp, IsBackup, Existing;
    ReadsSucceed(fails, d, files, |files|);
    var (d1, read) := ReadAll(fails, d, files, |files|);
    assert read.value == previous;
    BackUpSucceeds(fails, d1, files, previous, |files|);
    BackUpWrites(fails, d1, files, previous, |files|);
    var (d2, saved) := BackUp(fails, d1, files, previous, |files|);
    assert Replace(fails, d2, files, 0) == (Tried(d2), 0);
  }

  lemma OverwrittenByBackup(d: Disk, files: seq<Replacement>, i: nat)
    requires NeverTorn(d, files) && i < |files| && files[i].path in d.files
    requires Listed(files, files[i].path + BACKUP)
    ensures Content(d.files, files[i].path + BACKUP) == Some(d.files[files[i].path])
  {
    hide Transaction, Existing;
    var previous := seq(|files|, k requires 0 <= k < |files| => Content(d.files, files[k].path));
    var fails: Oracle := c => c == d.calls + |files| + Existing(previous, |files|);
    FirstReplacementFails(d, files, previous, fails);
  }

  /**
    The promise of the transaction holds exactly when no listed file is the
    backup path of another that exists, unless it already has that content.
    */
  lemma TornExactlyWhenBackupsCollide(d: Disk, files: seq<Replacement>)
    requires Distinct(files)
    ensures NeverTorn(d, files) <==> Harmless(d.files, files)
  {
    hide Transaction, Unchanged, Listed;
    if NeverTorn(d, files) {
      forall i | 0 <= i < |files| && files[i].path in d.files && Listed(files, files[i].path + BACKUP)
        ensures Content(d.files, files[i].path + BACKUP) == Some(d.files[files[i].path])
      {
        OverwrittenByBackup(d, files, i);
      }
    }
    if Harmless(d.files, files) {
      forall fails: Oracle | Transaction(fails, d, files).1 == Reraised
        ensures Unchanged(d.files, Transaction(fails, d, files).0.files, files)
      {
        AllOrNothing(fails, d, files);
      }
    }
  }

  /** Replacing a file together with its own backup can lose the backup. */
  lemma AFileAndItsBackup()
    ensures var d := Disk(map["a" := [1], "a.backup" := [2]], 0);
            !NeverTorn(d, [Replacement("a", [3]), Replacement("a.backup", [4])])
  {
    var d, files := Disk(map["a" := [1], "a.backup" := [2]], 0), [Replacement("a", [3]), Replacement("a.backup", [4])];
    assert files[0].path + BACKUP == files[1].path == "a.backup";
    assert Listed(files, files[0].path + BACKUP);
    assert !Harmless(d.files, files);
    assert Distinct(files) by { assert |files[0].path| != |files[1].path|; }
    TornExactlyWhenBackupsCollide(d, files);
  }

  // ---------------------------------------------------------------- in place

  class FileSystem {
    const fails: Oracle
    var files: map<Path, Bytes>
    var calls: nat

    ghost function View(): Disk
      reads this
    {
      Disk(files, calls)
    }

    method Read(path: Path) returns (r: Result<Option<Bytes>, ()>)
      modifies `calls
      ensures r == if fails(old(calls)) then Err(()) else Ok(Content(files, path))
      ensures View() == Tried(old(View()))
    {
      r := if fails(calls) then Err(()) else Ok(Content(files, path));
      calls := calls + 1;
    }

    method AtomicWrite(path: Path, data: Bytes) returns (ok: bool)
      modifies this
      ensures (View(), ok) == Write(fails, old(View()), path, data)
    {
      ok := !fails(calls);
      calls := calls + 1;
      if ok {
        files := files[path := data];
      }
    }

    method RemoveFile(path: Path) returns (ok: bool)
      modifies this
      ensures (View(), ok) == Remove(fails, old(View()), path)
    {
      ok := !fails(calls) && path in files;
      calls := calls + 1;
      if ok {
        files := files - {path};
      }
    }

    method ReadPrevious(list: seq<Replacement>) returns (previous: Option<seq<Option<Bytes>>>)
      modifies `calls
      ensures (View(), previous) == ReadAll(fails, old(View()), list, |list|)
    {
      var contents := [];
      for k := 0 to |list|
        invariant (View(), Some(contents)) == ReadAll(fails, old(View()), list, k)
      {
        var content := Read(list[k].path);
        if content.Err? {
          ReadStops(fails, old(View()), list, k + 1, View());
          return None;
        }
        contents := contents + [content.value];
      }
      return Some(contents);
    }

    /** `_write_transaction`. */
    method WriteTransaction(list: seq<Replacement>) returns (outcome: Outcome)
      modifies this
      ensures (View(), outcome) == Transaction(fails, old(View()), list)
    {
      hide ReadAll;
      var read := ReadPrevious(list);
      if read.None? {
        return Reraised;
      }
      var previous := read.value;
      ghost var d1 := View();
      for k := 0 to |list|
        invariant (View(), true) == BackUp(fails, d1, list, previous, k)
      {
        if previous[k].Some? {
          var ok := AtomicWrite(list[k].path + BACKUP, previous[k].value);
          if !ok {
            BackUpStops(fails, d1, list, previous, k + 1, View());
            return Reraised;
          }
        }
      }
      ghost var d2 := View();
      var changed := 0;
      while changed < |list|
        invariant changed <= |list|
        invariant Replace(fails, d2, list, 0) == Replace(fails, View(), list, changed)
      {
        var ok := AtomicWrite(list[changed].path, list[changed].data);
        if !ok {
          outcome := Undo(list, previous, changed);
          return;
        }
        changed := changed + 1;
      }
      return Done;
    }

    /** The error branch: undo what was changed, the last first. */
    method Undo(list: seq<Replacement>, previous: seq<Option<Bytes>>, changed: nat) returns (outcome: Outcome)
      requires changed < |list| == |previous|
      modifies this
      ensures var (d', failures) := RollBack(fails, old(View()), list, previous, changed);
              View() == d' && outcome == if failures > 0 then Incomplete else Reraised
    {
      var k: nat, failures: nat := changed, 0;
      while k > 0
        invariant k <= changed
        invariant var (d', more) := RollBack(fails, View(), list, previous, k);
                  RollBack(fails, old(View()), list, previous, changed) == (d', failures + more)
      {
        k := k - 1;
        var ok;
        if previous[k].None? {
          ok := RemoveFile(list[k].path);
        } else {
          ok := AtomicWrite(list[k].path, previous[k].value);
        }
        if !ok {
          failures := failures + 1;
        }
      }
      return if failures > 0 then Incomplete else Reraised;
    }
  }

  lemma {:induction false} ReadStops(fails: Oracle, d: Disk, files: seq<Replacement>, n: nat, d': Disk)
    requires n <= |files| && ReadAll(fails, d, files, n) == (d', None)
    ensures ReadAll(fails, d, files, |files|) == (d', None)
    decreases |files| - n
  {
    if n < |files| {
      assert ReadAll(fails, d, files, n + 1) == (d', None);
      ReadStops(fails, d, files, n + 1, d');
    }
  }

  lemma {:induction false} BackUpStops(fails: Oracle, d: Disk, files: seq<Replacement>, previous: seq<Option<Bytes>>,
                                       n: nat, d': Disk)
    requires n <= |files| == |previous| && BackUp(fails, d, files, previous, n) == (d', false)
    ensures BackUp(fails, d, files, previous, |files|) == (d', false)
    decreases |files| - n
  {
    if n < |files| {
      assert BackUp(fails, d, files, previous, n + 1) == (d', false);
      BackUpStops(fails, d, files, previous, n + 1, d');
    }
  }
}
