/** The backup scheduler (backup_scheduler.py): retention cleanup of the backup
    directory, the schedule chosen from a cron-like setting, the notification text,
    and the status report. Times are whole seconds. */
module Backup {
  import opened Common

  const Day: int := 86400

  /** What `os.stat` reports for a backup file. */
  datatype FileInfo = FileInfo(mtime: int, size: int)

  /** An entry of the list the cleanup sorts. */
  datatype Entry = Entry(name: string, mtime: int)

  // ---------------------------------------------------------------------------
  // Newest first
  // ---------------------------------------------------------------------------

  predicate NewestFirst(s: seq<Entry>)
  {
    forall i, j :: 0 <= i < j < |s| ==> s[i].mtime >= s[j].mtime
  }

  /** Place `e` before the first entry that is not newer than it. */
  function Insert(e: Entry, sorted: seq<Entry>): (r: seq<Entry>)
    requires NewestFirst(sorted)
    ensures NewestFirst(r)
    ensures multiset(r) == multiset(sorted) + multiset{e}
    ensures |r| == |sorted| + 1
    ensures forall k :: 0 <= k < |r| ==> r[k].mtime <= e.mtime || (|sorted| > 0 && r[k].mtime <= sorted[0].mtime)
  {
    if sorted == [] then [e]
    else if e.mtime >= sorted[0].mtime then [e] + sorted
    else
      var rest := Insert(e, sorted[1..]);
      assert sorted == [sorted[0]] + sorted[1..];
      [sorted[0]] + rest
  }

  /** `list.sort(key=mtime, reverse=True)`: a stable sort, newest first. */
  function Ranked(entries: seq<Entry>): (r: seq<Entry>)
    ensures NewestFirst(r)
    ensures multiset(r) == multiset(entries) && |r| == |entries|
  {
    if entries == [] then []
    else
      assert entries == [entries[0]] + entries[1..];
      Insert(entries[0], Ranked(entries[1..]))
  }

  // ---------------------------------------------------------------------------
  // Cleanup
  // ---------------------------------------------------------------------------

  /** The listing's files with their modification times. */
  function Entries(listing: seq<string>, files: map<string, FileInfo>): (r: seq<Entry>)
    requires forall k :: 0 <= k < |listing| ==> listing[k] in files
    ensures |r| == |listing|
    ensures forall k :: 0 <= k < |r| ==> r[k] == Entry(listing[k], files[listing[k]].mtime)
  {
    seq(|listing|, k requires 0 <= k < |listing| => Entry(listing[k], files[listing[k]].mtime))
  }

  /** `os.listdir` names every file of the directory exactly once. */
  ghost predicate Lists(listing: seq<string>, files: map<string, FileInfo>)
  {
    && (forall n :: n in files <==> n in listing)
    && (forall i, j :: 0 <= i < j < |listing| ==> listing[i] != listing[j])
  }

  function NamesOf(s: seq<Entry>): set<string>
  {
    set k | 0 <= k < |s| :: s[k].name
  }

  /** The names the first removal loop deletes: modified before the cutoff. */
  function Stale(s: seq<Entry>, cutoff: int): set<string>
  {
    set k | 0 <= k < |s| && s[k].mtime < cutoff :: s[k].name
  }

  /** Where Python's slice `xs[k:]` starts in a list of length `len`. */
  function SliceStart(k: int, len: nat): (r: nat)
    ensures r <= len
    ensures k >= 0 ==> r == if k < len then k else len
  {
    if k >= 0 then (if k < len then k else len)
    else if len + k > 0 then len + k else 0
  }

  /** The names the second removal loop targets: `backup_files[max_backups:]`, when the
      list is longer than `max_backups`. */
  function Excess(ranked: seq<Entry>, maxBackups: int): set<string>
  {
    if |ranked| > maxBackups then NamesOf(ranked[SliceStart(maxBackups, |ranked|)..]) else {}
  }

  /** The directory after `cleanup_old_backups`. */
  function Kept(files: map<string, FileInfo>, listing: seq<string>, cutoff: int, maxBackups: int): map<string, FileInfo>
    requires Lists(listing, files)
  {
    var ranked := Ranked(Entries(listing, files));
    map n | n in files && n !in Stale(ranked, cutoff) && n !in Excess(ranked, maxBackups) :: files[n]
  }

  /** Every backup that survives the cleanup was modified no earlier than the cutoff. */
  lemma KeptAreRecent(files: map<string, FileInfo>, listing: seq<string>, cutoff: int, maxBackups: int)
    requires Lists(listing, files)
    ensures forall n :: n in Kept(files, listing, cutoff, maxBackups) ==>
      Kept(files, listing, cutoff, maxBackups)[n] == files[n] && files[n].mtime >= cutoff
  {
    var entries := Entries(listing, files);
    var ranked := Ranked(entries);
    forall n | n in Kept(files, listing, cutoff, maxBackups) ensures files[n].mtime >= cutoff {
      var k :| 0 <= k < |listing| && listing[k] == n;
      assert entries[k] in multiset(ranked);
      var j :| 0 <= j < |ranked| && ranked[j] == entries[k];
      assert ranked[j].mtime < cutoff ==> n in Stale(ranked, cutoff);
    }
  }

  /** With a non-negative limit, the survivors are among the `maxBackups` newest files,
      so at most `maxBackups` remain. */
  lemma KeptAreNewest(files: map<string, FileInfo>, listing: seq<string>, cutoff: int, maxBackups: int)
    requires Lists(listing, files) && maxBackups >= 0
    ensures var ranked := Ranked(Entries(listing, files));
      forall n :: n in Kept(files, listing, cutoff, maxBackups) ==>
        n in NamesOf(ranked[..SliceStart(maxBackups, |ranked|)])
    ensures |Kept(files, listing, cutoff, maxBackups)| <= maxBackups
  {
    var entries := Entries(listing, files);
    var ranked := Ranked(entries);
    var cap := SliceStart(maxBackups, |ranked|);
    var kept := Kept(files, listing, cutoff, maxBackups);
    forall n | n in kept ensures n in NamesOf(ranked[..cap]) {
      var k :| 0 <= k < |listing| && listing[k] == n;
      assert entries[k] in multiset(ranked);
      var j :| 0 <= j < |ranked| && ranked[j] == entries[k];
      NamesOfSlices(ranked, cap);
    }
    assert kept.Keys <= NamesOf(ranked[..cap]);
    NamesOfSize(ranked[..cap]);
    SubsetSize(kept.Keys, NamesOf(ranked[..cap]));
  }

  /** Each entry's name is among the names of the slice that holds it. */
  lemma NamesOfSlices(s: seq<Entry>, cap: nat)
    requires cap <= |s|
    ensures forall j :: 0 <= j < cap ==> s[j].name in NamesOf(s[..cap])
    ensures forall j :: cap <= j < |s| ==> s[j].name in NamesOf(s[cap..])
  {
    forall j | 0 <= j < cap ensures s[j].name in NamesOf(s[..cap]) {
      assert s[..cap][j] == s[j];
    }
    forall j | cap <= j < |s| ensures s[j].name in NamesOf(s[cap..]) {
      assert s[cap..][j - cap] == s[j];
    }
  }

  lemma {:induction false} NamesOfSize(s: seq<Entry>)
    ensures |NamesOf(s)| <= |s|
  {
    if s != [] {
      var init := s[..|s| - 1];
      NamesOfSize(init);
      assert NamesOf(s) == NamesOf(init) + {s[|s| - 1].name} by {
        forall n | n in NamesOf(s) ensures n in NamesOf(init) + {s[|s| - 1].name} {
          var k :| 0 <= k < |s| && s[k].name == n;
          if k < |s| - 1 {
            assert init[k].name == n;
          }
        }
        forall n | n in NamesOf(init) ensures n in NamesOf(s) {
          var k :| 0 <= k < |init| && init[k].name == n;
          assert s[k].name == n;
        }
      }
    }
  }

  lemma SubsetSize<T>(a: set<T>, b: set<T>)
    requires a <= b
    ensures |a| <= |b|
  {
    assert b == a + (b - a);
  }

  // ---------------------------------------------------------------------------
  // Schedule and notification
  // ---------------------------------------------------------------------------

  datatype Job =
    | DailyAt(time: string, kind: string)
    | SundayAt(time: string, kind: string)
    | EveryHours(hours: nat, kind: string)
    | DailyCleanupAt(time: string)

  /** `setup_schedule`: the backup job chosen from `BACKUP_SCHEDULE`, then the cleanup. */
  function Schedule(setting: string): (r: seq<Job>)
    ensures |r| == 2 && r[1] == DailyCleanupAt("03:00")
    ensures setting == "0 2 * * *" ==> r[0] == DailyAt("02:00", "daily")
    ensures setting != "0 2 * * *" && StartsWith(setting, "0 2 * * 0") ==> r[0] == SundayAt("02:00", "weekly")
    ensures setting != "0 2 * * *" && !StartsWith(setting, "0 2 * * 0") && StartsWith(setting, "0 */6") ==>
      r[0] == EveryHours(6, "hourly")
    ensures !StartsWith(setting, "0 2 * * 0") && !StartsWith(setting, "0 */6") ==> r[0] == DailyAt("02:00", "daily")
  {
    var job :=
      if setting == "0 2 * * *" then DailyAt("02:00", "daily")
      else if StartsWith(setting, "0 2 * * 0") then SundayAt("02:00", "weekly")
      else if StartsWith(setting, "0 */6") then EveryHours(6, "hourly")
      else DailyAt("02:00", "daily");
    [job, DailyCleanupAt("03:00")]
  }

  /** The message of `send_backup_notification`. */
  function Message(success: bool, kind: string, error: Option<string>): (r: string)
    ensures success ==> r == "Linkak " + kind + " backup SUCCESS"
    ensures !success ==> StartsWith(r, "Linkak " + kind + " backup FAILED")
    ensures !success && error.Some? && error.value != "" ==> r == "Linkak " + kind + " backup FAILED: " + error.value
    ensures !success && (error.None? || error.value == "") ==> r == "Linkak " + kind + " backup FAILED"
  {
    var head := "Linkak " + kind + " backup " + (if success then "SUCCESS" else "FAILED");
    if !success && error.Some? && error.value != "" then head + ": " + error.value else head
  }

  /** What a notification sends: the webhook payload (text and error) when a webhook is
      configured, and an email when one is configured and the backup failed. */
  datatype Notice = Notice(webhook: Option<(string, Option<string>)>, email: Option<string>)

  function Notify(success: bool, kind: string, error: Option<string>, webhookSet: bool, emailSet: bool): (r: Notice)
    ensures r.email.Some? <==> !success && emailSet
    ensures r.webhook.Some? <==> webhookSet
    ensures r.webhook.Some? ==>
      && r.webhook.value.0 == Message(success, kind, error)
      && (r.webhook.value.1.Some? <==> error.Some? && error.value != "")
    ensures r.email.Some? ==> r.email.value == Message(success, kind, error)
  {
    var text := Message(success, kind, error);
    Notice(
      if webhookSet then Some((text, if error.Some? && error.value != "" then error else None)) else None,
      if !success && emailSet then Some(text) else None)
  }

  /** How the backup script ended. */
  datatype ScriptOutcome = Exited(code: int, stderr: string) | TimedOut | Raised(error: string)

  // ---------------------------------------------------------------------------
  // Status
  // ---------------------------------------------------------------------------

  datatype Status = Status(totalBackups: nat, totalSize: int, shown: seq<Entry>, lastBackup: Option<int>)

  function SumSizes(listing: seq<string>, files: map<string, FileInfo>): int
    requires forall k :: 0 <= k < |listing| ==> listing[k] in files
  {
    if listing == [] then 0 else SumSizes(listing[..|listing| - 1], files) + files[listing[|listing| - 1]].size
  }

  /** The scheduler and the backup directory it manages. */
  class BackupScheduler {
    const retentionDays: int
    const maxBackups: int
    var files: map<string, FileInfo>
    var notices: seq<Notice>

    constructor (retention: int, limit: int, existing: map<string, FileInfo>)
      ensures retentionDays == retention && maxBackups == limit && files == existing && notices == []
    {
      retentionDays, maxBackups := retention, limit;
      files, notices := existing, [];
    }

    /** `cleanup_old_backups`: removes the files older than the retention period, then
        those beyond the `max_backups` newest; `removed` counts each deleted file once. */
    method CleanupOldBackups(now: int, listing: seq<string>) returns (removed: nat)
      requires Lists(listing, files)
      modifies this`files
      ensures files == Kept(old(files), listing, now - retentionDays * Day, maxBackups)
      ensures removed == |old(files)| - |files|
    {
      var dir;
      dir, removed := Clean(files, listing, now - retentionDays * Day, maxBackups);
      files := dir;
    }

    /** `run_backup`: a script that exits with 0 is followed by the cleanup and a success
        notice; any other ending sends a failure notice and never cleans up. */
    method RunBackup(kind: string, outcome: ScriptOutcome, now: int, listing: seq<string>, webhookSet: bool, emailSet: bool)
      requires Lists(listing, files)
      modifies this`files, this`notices
      ensures outcome.Exited? && outcome.code == 0 ==>
        && files == Kept(old(files), listing, now - retentionDays * Day, maxBackups)
        && notices == old(notices) + [Notify(true, kind, None, webhookSet, emailSet)]
      ensures !(outcome.Exited? && outcome.code == 0) ==>
        && files == old(files)
        && var error := match outcome
             case Exited(_, stderr) => stderr
             case TimedOut => "Backup timed out"
             case Raised(e) => e;
           notices == old(notices) + [Notify(false, kind, Some(error), webhookSet, emailSet)]
    {
      match outcome {
        case Exited(code, stderr) =>
          if code == 0 {
            var _ := CleanupOldBackups(now, listing);
            notices := notices + [Notify(true, kind, None, webhookSet, emailSet)];
          } else {
            notices := notices + [Notify(false, kind, Some(stderr), webhookSet, emailSet)];
          }
        case TimedOut =>
          notices := notices + [Notify(false, kind, Some("Backup timed out"), webhookSet, emailSet)];
        case Raised(e) =>
          notices := notices + [Notify(false, kind, Some(e), webhookSet, emailSet)];
      }
    }

    /** `get_backup_status`: the count and total size, the ten newest files and the time
        of the newest. */
    method GetBackupStatus(listing: seq<string>) returns (s: Status)
      requires Lists(listing, files)
      ensures s.totalBackups == |files| && s.totalSize == SumSizes(listing, files)
      ensures var ranked := Ranked(Entries(listing, files));
        s.shown == ranked[..if |ranked| < 10 then |ranked| else 10]
      ensures s.lastBackup.Some? <==> |files| > 0
      ensures s.lastBackup.Some? ==>
        (exists n :: n in files && files[n].mtime == s.lastBackup.value)
        && forall n :: n in files ==> files[n].mtime <= s.lastBackup.value
    {
      var total := 0;
      var k := 0;
      while k < |listing|
        invariant 0 <= k <= |listing|
        invariant total == SumSizes(listing[..k], files)
      {
        assert listing[..k + 1][..k] == listing[..k];
        total := total + files[listing[k]].size;
        k := k + 1;
      }
      assert listing[..k] == listing;
      var entries := Entries(listing, files);
      var ranked := Ranked(entries);
      ListedOnce(listing, files);
      var last: Option<int> := None;
      if |ranked| > 0 {
        last := Some(ranked[0].mtime);
        NewestIsFirst(listing, files, entries, ranked);
      }
      s := Status(|listing|, total, ranked[..if |ranked| < 10 then |ranked| else 10], last);
    }
  }

  /** The two removal loops of `cleanup_old_backups` over the directory `start`. */
  method Clean(start: map<string, FileInfo>, listing: seq<string>, cutoff: int, maxBackups: int)
    returns (dir: map<string, FileInfo>, removed: nat)
    requires Lists(listing, start)
    ensures dir == Kept(start, listing, cutoff, maxBackups)
    ensures removed == |start| - |dir|
  {
    var ranked := Ranked(Entries(listing, start));
    var recent, stale := DropStale(start, ranked, cutoff);
    dir, removed := recent, stale;
    if |ranked| > maxBackups {
      var excess;
      dir, excess := DropListed(recent, ranked[SliceStart(maxBackups, |ranked|)..]);
      removed := stale + excess;
    }
    assert dir.Keys == start.Keys - Stale(ranked, cutoff) - Excess(ranked, maxBackups);
    KeptFrom(start, listing, cutoff, maxBackups, dir);
  }

  /** A directory with exactly the surviving names and unchanged files is the kept one. */
  lemma KeptFrom(start: map<string, FileInfo>, listing: seq<string>, cutoff: int, maxBackups: int, dir: map<string, FileInfo>)
    requires Lists(listing, start)
    requires var ranked := Ranked(Entries(listing, start));
      dir.Keys == start.Keys - Stale(ranked, cutoff) - Excess(ranked, maxBackups)
    requires forall n :: n in dir ==> n in start && dir[n] == start[n]
    ensures dir == Kept(start, listing, cutoff, maxBackups)
  {
    SameDirectory(dir, Kept(start, listing, cutoff, maxBackups));
  }

  /** The first loop: every ranked file modified before the cutoff is deleted. */
  method DropStale(start: map<string, FileInfo>, ranked: seq<Entry>, cutoff: int)
    returns (dir: map<string, FileInfo>, removed: nat)
    ensures dir.Keys == start.Keys - Stale(ranked, cutoff)
    ensures forall n :: n in dir ==> n in start && dir[n] == start[n]
    ensures removed == |start| - |dir|
  {
    dir := start;
    removed := 0;
    var i := 0;
    assert Stale(ranked[..0], cutoff) == {};
    while i < |ranked|
      invariant 0 <= i <= |ranked|
      invariant dir.Keys == start.Keys - Stale(ranked[..i], cutoff)
      invariant forall n :: n in dir ==> n in start && dir[n] == start[n]
      invariant removed == |start| - |dir|
    {
      var before, count := dir, removed;
      if ranked[i].mtime < cutoff && ranked[i].name in dir {
        dir := dir - {ranked[i].name};
        removed := removed + 1;
      }
      StaleDropStep(start, before, dir, ranked, i, cutoff, count, removed);
      i := i + 1;
    }
    assert ranked[..i] == ranked;
  }

  /** The second loop: every listed file that still exists is deleted. */
  method DropListed(start: map<string, FileInfo>, victims: seq<Entry>)
    returns (dir: map<string, FileInfo>, removed: nat)
    ensures dir.Keys == start.Keys - NamesOf(victims)
    ensures forall n :: n in dir ==> n in start && dir[n] == start[n]
    ensures removed == |start| - |dir|
  {
    dir := start;
    removed := 0;
    var j := 0;
    assert NamesOf(victims[..0]) == {};
    while j < |victims|
      invariant 0 <= j <= |victims|
      invariant dir.Keys == start.Keys - NamesOf(victims[..j])
      invariant forall n :: n in dir ==> n in start && dir[n] == start[n]
      invariant removed == |start| - |dir|
    {
      NamesStep(victims, j);
      var name := victims[j].name;
      var before, count := dir, removed;
      if name in dir {
        dir := dir - {name};
        removed := removed + 1;
      }
      DropStep(start, before, dir, NamesOf(victims[..j]), name, count, removed);
      j := j + 1;
    }
    assert victims[..j] == victims;
  }

  /** One more entry looked at by the first removal loop. */
  lemma StaleStep(ranked: seq<Entry>, i: nat, cutoff: int)
    requires i < |ranked|
    ensures Stale(ranked[..i + 1], cutoff) ==
      Stale(ranked[..i], cutoff) + (if ranked[i].mtime < cutoff then {ranked[i].name} else {})
  {
    var a, b := ranked[..i + 1], ranked[..i];
    forall n | n in Stale(a, cutoff) ensures n in Stale(b, cutoff) + (if ranked[i].mtime < cutoff then {ranked[i].name} else {}) {
      var k :| 0 <= k < |a| && a[k].mtime < cutoff && a[k].name == n;
      if k < i {
        assert b[k] == a[k];
      }
    }
    forall n | n in Stale(b, cutoff) ensures n in Stale(a, cutoff) {
      var k :| 0 <= k < |b| && b[k].mtime < cutoff && b[k].name == n;
      assert a[k] == b[k];
    }
    if ranked[i].mtime < cutoff {
      assert a[i] == ranked[i];
    }
  }

  /** One more entry looked at by the second removal loop. */
  lemma NamesStep(s: seq<Entry>, j: nat)
    requires j < |s|
    ensures NamesOf(s[..j + 1]) == NamesOf(s[..j]) + {s[j].name}
  {
    var a, b := s[..j + 1], s[..j];
    assert a[j] == s[j];
    forall n | n in NamesOf(a) ensures n in NamesOf(b) + {s[j].name} {
      var k :| 0 <= k < |a| && a[k].name == n;
      if k < j {
        assert b[k] == a[k];
      }
    }
    forall n | n in NamesOf(b) ensures n in NamesOf(a) {
      var k :| 0 <= k < |b| && b[k].name == n;
      assert a[k] == b[k];
    }
  }

  /** One iteration of the first removal loop keeps its invariant. */
  lemma StaleDropStep(start: map<string, FileInfo>, dir: map<string, FileInfo>, after: map<string, FileInfo>,
                      ranked: seq<Entry>, i: nat, cutoff: int, removed: int, removedAfter: int)
    requires i < |ranked|
    requires dir.Keys == start.Keys - Stale(ranked[..i], cutoff)
    requires forall n :: n in dir ==> n in start && dir[n] == start[n]
    requires removed == |start| - |dir|
    requires var hit := ranked[i].mtime < cutoff && ranked[i].name in dir;
      && after == (if hit then dir - {ranked[i].name} else dir)
      && removedAfter == (if hit then removed + 1 else removed)
    ensures after.Keys == start.Keys - Stale(ranked[..i + 1], cutoff)
    ensures forall n :: n in after ==> n in start && after[n] == start[n]
    ensures removedAfter == |start| - |after|
  {
    StaleStep(ranked, i, cutoff);
    if ranked[i].mtime < cutoff {
      DropStep(start, dir, after, Stale(ranked[..i], cutoff), ranked[i].name, removed, removedAfter);
    }
  }

  /** Deleting one more name (when present) keeps a directory equal to the start minus
      the names deleted so far, and keeps the count of removed files exact. */
  lemma DropStep(start: map<string, FileInfo>, dir: map<string, FileInfo>, after: map<string, FileInfo>,
                 gone: set<string>, name: string, removed: int, removedAfter: int)
    requires dir.Keys == start.Keys - gone
    requires forall n :: n in dir ==> n in start && dir[n] == start[n]
    requires removed == |start| - |dir|
    requires after == if name in dir then dir - {name} else dir
    requires removedAfter == if name in dir then removed + 1 else removed
    ensures after.Keys == start.Keys - (gone + {name})
    ensures forall n :: n in after ==> n in start && after[n] == start[n]
    ensures removedAfter == |start| - |after|
  {
    if name in dir {
      RemoveOne(dir, name);
    }
  }

  /** Deleting a present file shrinks the directory by exactly one. */
  lemma RemoveOne(files: map<string, FileInfo>, name: string)
    requires name in files
    ensures |files - {name}| == |files| - 1
  {
    assert (files - {name}).Keys == files.Keys - {name};
  }

  /** Two directories with the same names and the same files are equal. */
  lemma SameDirectory(a: map<string, FileInfo>, b: map<string, FileInfo>)
    requires a.Keys == b.Keys && forall n :: n in a ==> a[n] == b[n]
    ensures a == b
  {
  }

  /** A listing without repeats has as many names as the directory has files. */
  lemma ListedOnce(listing: seq<string>, files: map<string, FileInfo>)
    requires Lists(listing, files)
    ensures |listing| == |files|
  {
    assert files.Keys == set n | n in listing;
    DistinctSize(listing);
  }

  lemma {:induction false} DistinctSize(s: seq<string>)
    requires forall i, j :: 0 <= i < j < |s| ==> s[i] != s[j]
    ensures |set n | n in s| == |s|
  {
    if s != [] {
      var init := s[..|s| - 1];
      DistinctSize(init);
      assert (set n | n in s) == (set n | n in init) + {s[|s| - 1]};
      assert s[|s| - 1] !in init;
    }
  }

  /** The first of the ranked entries carries the newest modification time. */
  lemma NewestIsFirst(listing: seq<string>, files: map<string, FileInfo>, entries: seq<Entry>, ranked: seq<Entry>)
    requires Lists(listing, files)
    requires entries == Entries(listing, files) && ranked == Ranked(entries) && |ranked| > 0
    ensures exists n :: n in files && files[n].mtime == ranked[0].mtime
    ensures forall n :: n in files ==> files[n].mtime <= ranked[0].mtime
  {
    assert ranked[0] in multiset(entries);
    var k :| 0 <= k < |entries| && entries[k] == ranked[0];
    assert listing[k] in files;
    forall n | n in files ensures files[n].mtime <= ranked[0].mtime {
      var i :| 0 <= i < |listing| && listing[i] == n;
      assert entries[i] in multiset(ranked);
      var j :| 0 <= j < |ranked| && ranked[j] == entries[i];
    }
  }
}
