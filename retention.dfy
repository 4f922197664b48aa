/**
 * The log directory and the age-based retention pass of
 * `LogManager._cleanup_old_logs` (main.py:90-111): every entry whose name
 * matches `app_*.log*` and whose modification time is strictly earlier than
 * `now - retention_days` is deleted; a failure on one entry is logged as a
 * warning and the scan goes on; a failure of the enumeration itself is logged
 * as an error; nothing is raised.
 */
module Retention {
  import opened Wrappers
  import opened Naming
  import opened Logs

  const SecondsPerDay: int := 86400

  /**
   * One directory entry: its modification time (seconds since the epoch) and
   * the error text `stat` or `unlink` would raise on it, if any.
   */
  datatype FileInfo = FileInfo(mtime: int, statError: Option<string>, unlinkError: Option<string>)

  /** A snapshot of the log directory: whether it exists and what it holds, by name. */
  datatype DirState = DirState(present: bool, files: map<string, FileInfo>)

  /**
   * What enumerating the directory yields, in the order the operating system
   * gives it: the names produced, then possibly an error that stopped the
   * enumeration (an empty listing for a missing directory).
   */
  datatype Listing = Listing(names: seq<string>, failure: Option<string>)

  /** What a pass leaves behind: the directory contents and the logging calls it makes. */
  datatype Swept = Swept(files: map<string, FileInfo>, log: seq<Record>)

  /** `cutoff_date = now - timedelta(days=retention_days)` (main.py:93). */
  function Cutoff(now: int, retentionDays: int): (c: int)
    ensures retentionDays >= 0 ==> c <= now
  {
    now - retentionDays * SecondsPerDay
  }

  /** `str(self.log_dir / name)`. */
  function PathOf(logDir: string, name: string): string
  {
    logDir + "/" + name
  }

  /** The text of the FileNotFoundError `stat` raises on a name that is gone. */
  function NoSuchFile(path: string): string
  {
    "[Errno 2] No such file or directory: '" + path + "'"
  }

  function RemovedText(path: string): string { "Removed old log file: " + path }

  function FailedFileText(path: string, err: string): string
  {
    "Failed to process log file " + path + ": " + err
  }

  function FailedCleanupText(err: string): string { "Failed to cleanup old logs: " + err }

  /** An entry the pass deletes: a matching name, a successful stat, an old mtime and a successful unlink. */
  predicate Expired(name: string, f: FileInfo, cutoff: int)
  {
    MatchesLogPattern(name) && f.statError.None? && f.mtime < cutoff && f.unlinkError.None?
  }

  /** One iteration of the loop at main.py:95-107 on a name the enumeration produced. */
  function Visit(files: map<string, FileInfo>, name: string, cutoff: int, logDir: string): (r: Swept)
    ensures r.files == if name in files && Expired(name, files[name], cutoff) then files - {name} else files
    ensures |r.log| <= 1
    ensures forall rec :: rec in r.log ==> rec.level == Debug || rec.level == Warning
    ensures r.log == [Record(Debug, RemovedText(PathOf(logDir, name)))] <==> name in files && Expired(name, files[name], cutoff)
    ensures MatchesLogPattern(name) && name !in files ==>
              r.log == [Record(Warning, FailedFileText(PathOf(logDir, name), NoSuchFile(PathOf(logDir, name))))]
    ensures MatchesLogPattern(name) && name in files && files[name].statError.Some? ==>
              r.log == [Record(Warning, FailedFileText(PathOf(logDir, name), files[name].statError.value))]
    ensures MatchesLogPattern(name) && name in files && files[name].statError.None? && files[name].mtime < cutoff
            && files[name].unlinkError.Some? ==>
              r.log == [Record(Warning, FailedFileText(PathOf(logDir, name), files[name].unlinkError.value))]
    ensures r.log == [] <==> !MatchesLogPattern(name) || (name in files && files[name].statError.None? && !(files[name].mtime < cutoff))
  {
    var path := PathOf(logDir, name);
    if !MatchesLogPattern(name) then Swept(files, [])
    else if name !in files then Swept(files, [Record(Warning, FailedFileText(path, NoSuchFile(path)))])
    else
      var f := files[name];
      if f.statError.Some? then Swept(files, [Record(Warning, FailedFileText(path, f.statError.value))])
      else if !(f.mtime < cutoff) then Swept(files, [])
      else if f.unlinkError.Some? then Swept(files, [Record(Warning, FailedFileText(path, f.unlinkError.value))])
      else Swept(files - {name}, [Record(Debug, RemovedText(path))])
  }

  /** The loop over the enumerated names, in order. */
  function Sweep(files: map<string, FileInfo>, names: seq<string>, cutoff: int, logDir: string): (r: Swept)
    decreases |names|
  {
    if names == [] then Swept(files, [])
    else
      var s := Sweep(files, names[..|names| - 1], cutoff, logDir);
      var v := Visit(s.files, names[|names| - 1], cutoff, logDir);
      Swept(v.files, s.log + v.log)
  }

  /** One more listed name extends the loop by one `Visit`. */
  lemma SweepStep(files: map<string, FileInfo>, names: seq<string>, i: nat, cutoff: int, logDir: string)
    requires i < |names|
    ensures var s := Sweep(files, names[..i], cutoff, logDir);
            var v := Visit(s.files, names[i], cutoff, logDir);
            Sweep(files, names[..i + 1], cutoff, logDir) == Swept(v.files, s.log + v.log)
  {
    assert names[..i + 1][..i] == names[..i];
  }

  /** The whole pass, including the error an interrupted enumeration logs (main.py:109-111). */
  function Cleanup(files: map<string, FileInfo>, listing: Listing, cutoff: int, logDir: string): (r: Swept)
    ensures listing.failure.Some? ==>
              |r.log| >= 1 && r.log[|r.log| - 1] == Record(Error, FailedCleanupText(listing.failure.value))
  {
    var s := Sweep(files, listing.names, cutoff, logDir);
    match listing.failure
    case None => s
    case Some(err) => Swept(s.files, s.log + [Record(Error, FailedCleanupText(err))])
  }

  /** The reference description of what survives: every entry except the expired ones that were listed. */
  function Kept(files: map<string, FileInfo>, names: seq<string>, cutoff: int): map<string, FileInfo>
  {
    map n | n in files && !(n in names && Expired(n, files[n], cutoff)) :: files[n]
  }

  /** The loop deletes exactly the listed expired entries and leaves every other entry as it was. */
  lemma {:induction false} SweepKeepsExactlyUnexpired(files: map<string, FileInfo>, names: seq<string>, cutoff: int, logDir: string)
    ensures Sweep(files, names, cutoff, logDir).files == Kept(files, names, cutoff)
    decreases |names|
  {
    if names == [] {
      assert Kept(files, names, cutoff) == files;
    } else {
      var init, last := names[..|names| - 1], names[|names| - 1];
      assert names == init + [last];
      SweepKeepsExactlyUnexpired(files, init, cutoff, logDir);
      var before := Kept(files, init, cutoff);
      var after := Visit(before, last, cutoff, logDir).files;
      if last in before && Expired(last, before[last], cutoff) {
        assert after == before - {last};
        assert Kept(files, names, cutoff) == before - {last};
      } else {
        assert after == before;
        assert Kept(files, names, cutoff) == before;
      }
    }
  }

  /** The loop only removes entries: every entry that stays is as it was. */
  lemma SweepOnlyRemoves(files: map<string, FileInfo>, names: seq<string>, cutoff: int, logDir: string)
    ensures forall n :: n in Sweep(files, names, cutoff, logDir).files ==> n in files && Sweep(files, names, cutoff, logDir).files[n] == files[n]
  {
    SweepKeepsExactlyUnexpired(files, names, cutoff, logDir);
  }

  /** When the listing holds every matching entry, the pass removes exactly the expired entries and nothing else. */
  lemma CleanupRemovesExactlyExpired(files: map<string, FileInfo>, listing: Listing, cutoff: int, logDir: string)
    requires forall n :: n in files && MatchesLogPattern(n) ==> n in listing.names
    ensures Cleanup(files, listing, cutoff, logDir).files
            == map n | n in files && !Expired(n, files[n], cutoff) :: files[n]
  {
    SweepKeepsExactlyUnexpired(files, listing.names, cutoff, logDir);
  }

  /**
   * The age test reads the modification time only: an entry whose mtime is not
   * before the cutoff survives unchanged, whatever date its name carries.
   */
  lemma RecentEntrySurvives(files: map<string, FileInfo>, listing: Listing, cutoff: int, logDir: string, name: string)
    requires name in files && files[name].mtime >= cutoff
    ensures name in Cleanup(files, listing, cutoff, logDir).files
    ensures Cleanup(files, listing, cutoff, logDir).files[name] == files[name]
  {
    SweepKeepsExactlyUnexpired(files, listing.names, cutoff, logDir);
  }

  /** A name outside the pattern is never touched, however old the entry. */
  lemma UnmatchedEntrySurvives(files: map<string, FileInfo>, listing: Listing, cutoff: int, logDir: string, name: string)
    requires name in files && !MatchesLogPattern(name)
    ensures name in Cleanup(files, listing, cutoff, logDir).files
    ensures Cleanup(files, listing, cutoff, logDir).files[name] == files[name]
  {
    SweepKeepsExactlyUnexpired(files, listing.names, cutoff, logDir);
  }

  /** The records of a prefix of the listing are a prefix of the records of the whole listing. */
  lemma {:induction false} SweepLogExtends(files: map<string, FileInfo>, names: seq<string>, cutoff: int, logDir: string, k: nat)
    requires k <= |names|
    ensures Sweep(files, names[..k], cutoff, logDir).log <= Sweep(files, names, cutoff, logDir).log
    decreases |names|
  {
    if k < |names| {
      var init := names[..|names| - 1];
      assert init[..k] == names[..k];
      SweepLogExtends(files, init, cutoff, logDir, k);
    } else {
      assert names[..k] == names;
    }
  }

  /**
   * An expired-looking entry whose unlink fails stays in the directory, and the
   * pass logs a warning naming it (and goes on with the names after it).
   */
  lemma FailedRemovalIsWarned(files: map<string, FileInfo>, names: seq<string>, cutoff: int, logDir: string, k: nat)
    requires k < |names| && names[k] in files
    requires MatchesLogPattern(names[k]) && files[names[k]].statError.None?
    requires files[names[k]].mtime < cutoff && files[names[k]].unlinkError.Some?
    ensures names[k] in Sweep(files, names, cutoff, logDir).files
    ensures Record(Warning, FailedFileText(PathOf(logDir, names[k]), files[names[k]].unlinkError.value))
            in Sweep(files, names, cutoff, logDir).log
  {
    var name := names[k];
    SweepKeepsExactlyUnexpired(files, names, cutoff, logDir);
    SweepKeepsExactlyUnexpired(files, names[..k], cutoff, logDir);
    var upto := names[..k + 1];
    assert upto[..k] == names[..k] && upto[k] == name;
    var w := Record(Warning, FailedFileText(PathOf(logDir, name), files[name].unlinkError.value));
    assert w in Sweep(files, upto, cutoff, logDir).log;
    SweepLogExtends(files, names, cutoff, logDir, k + 1);
  }

  /**
   * An entry whose `stat` fails stays in the directory, and the pass logs a
   * warning with its path and the error (and goes on with the names after it).
   */
  lemma StatFailureWarned(files: map<string, FileInfo>, names: seq<string>, cutoff: int, logDir: string, k: nat)
    requires k < |names| && names[k] in files
    requires MatchesLogPattern(names[k]) && files[names[k]].statError.Some?
    ensures names[k] in Sweep(files, names, cutoff, logDir).files
    ensures Record(Warning, FailedFileText(PathOf(logDir, names[k]), files[names[k]].statError.value))
            in Sweep(files, names, cutoff, logDir).log
  {
    var name := names[k];
    SweepKeepsExactlyUnexpired(files, names, cutoff, logDir);
    SweepKeepsExactlyUnexpired(files, names[..k], cutoff, logDir);
    var upto := names[..k + 1];
    assert upto[..k] == names[..k] && upto[k] == name;
    var w := Record(Warning, FailedFileText(PathOf(logDir, name), files[name].statError.value));
    assert w in Sweep(files, upto, cutoff, logDir).log;
    SweepLogExtends(files, names, cutoff, logDir, k + 1);
  }

  /**
   * A listed name that is gone by the time it is visited stays absent, and
   * the pass logs a warning with the FileNotFoundError text.
   */
  lemma VanishedEntryWarned(files: map<string, FileInfo>, names: seq<string>, cutoff: int, logDir: string, k: nat)
    requires k < |names| && names[k] !in files && MatchesLogPattern(names[k])
    ensures Record(Warning, FailedFileText(PathOf(logDir, names[k]), NoSuchFile(PathOf(logDir, names[k]))))
            in Sweep(files, names, cutoff, logDir).log
  {
    var name := names[k];
    SweepKeepsExactlyUnexpired(files, names[..k], cutoff, logDir);
    var upto := names[..k + 1];
    assert upto[..k] == names[..k] && upto[k] == name;
    var w := Record(Warning, FailedFileText(PathOf(logDir, name), NoSuchFile(PathOf(logDir, name))));
    assert w in Sweep(files, upto, cutoff, logDir).log;
    SweepLogExtends(files, names, cutoff, logDir, k + 1);
  }

  /** The per-file loop logs at DEBUG (an entry removed) or WARNING (an entry that failed) only. */
  lemma {:induction false} SweepLogsDebugOrWarning(files: map<string, FileInfo>, names: seq<string>, cutoff: int, logDir: string)
    ensures forall r :: r in Sweep(files, names, cutoff, logDir).log ==> r.level == Debug || r.level == Warning
    decreases |names|
  {
    if names != [] {
      SweepLogsDebugOrWarning(files, names[..|names| - 1], cutoff, logDir);
    }
  }

  /** The whole pass never logs at INFO, and logs at ERROR only when the enumeration failed. */
  lemma CleanupNeverLogsInfo(files: map<string, FileInfo>, listing: Listing, cutoff: int, logDir: string)
    ensures forall r :: r in Cleanup(files, listing, cutoff, logDir).log ==> r.level != Info
    ensures forall r :: r in Cleanup(files, listing, cutoff, logDir).log && r.level == Error ==> listing.failure.Some?
  {
    SweepLogsDebugOrWarning(files, listing.names, cutoff, logDir);
  }

  /** What `stat` reports on a directory entry. */
  datatype StatResult = Stat(mtime: int) | StatFailed(error: string)

  /** `Path.mkdir(exist_ok=True)` on a directory state: an existing directory is left as it is. */
  function MkdirState(d: DirState): (r: DirState)
    ensures r.present
    ensures d.present ==> r == d
    ensures !d.present ==> r.files == map[]
  {
    if d.present then d else DirState(true, map[])
  }

  /** Opening `name` for appending on a directory state: the file is created, with mtime `now`, when absent. */
  function OpenedState(d: DirState, name: string, now: int): (r: DirState)
    ensures r.present == d.present && name in r.files
    ensures name in d.files ==> r == d
    ensures name !in d.files ==> r.files[name] == FileInfo(now, None, None) && r.files - {name} == d.files
  {
    if name in d.files then d else d.(files := d.files[name := FileInfo(now, None, None)])
  }

  /**
   * The log directory on disk. `StatEntry` and `Unlink` take the entry's
   * `path` as well, since that is how the program names it in error texts.
   */
  class LogDirectory {
    var present: bool
    var files: map<string, FileInfo>

    constructor (present: bool, files: map<string, FileInfo>)
      ensures this.present == present && this.files == files
    {
      this.present := present;
      this.files := files;
    }

    function State(): DirState
      reads this
    {
      DirState(present, files)
    }

    /** `Path.mkdir(exist_ok=True)` when it succeeds: an existing directory is left as it is. */
    method Mkdir()
      modifies this
      ensures State() == MkdirState(old(State()))
    {
      if !present {
        present := true;
        files := map[];
      }
    }

    /** Opening `name` for appending: the file is created, with mtime `now`, when absent. */
    method Open(name: string, now: int)
      modifies this
      ensures State() == OpenedState(old(State()), name, now)
    {
      if name !in files {
        files := files[name := FileInfo(now, None, None)];
      }
    }

    method StatEntry(name: string, path: string) returns (r: StatResult)
      ensures name !in files ==> r == StatFailed(NoSuchFile(path))
      ensures name in files && files[name].statError.Some? ==> r == StatFailed(files[name].statError.value)
      ensures name in files && files[name].statError.None? ==> r == Stat(files[name].mtime)
    {
      if name !in files {
        r := StatFailed(NoSuchFile(path));
      } else if files[name].statError.Some? {
        r := StatFailed(files[name].statError.value);
      } else {
        r := Stat(files[name].mtime);
      }
    }

    /** `Path.unlink()`: removes the entry, or returns the error text it raises. */
    method Unlink(name: string, path: string) returns (err: Option<string>)
      modifies this
      ensures present == old(present)
      ensures name !in old(files) ==> err == Some(NoSuchFile(path)) && files == old(files)
      ensures name in old(files) && old(files)[name].unlinkError.Some? ==>
                err == old(files)[name].unlinkError && files == old(files)
      ensures name in old(files) && old(files)[name].unlinkError.None? ==>
                err == None && files == old(files) - {name}
    {
      if name !in files {
        err := Some(NoSuchFile(path));
      } else if files[name].unlinkError.Some? {
        err := files[name].unlinkError;
      } else {
        err := None;
        files := files - {name};
      }
    }
  }
}
