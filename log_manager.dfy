/**
 * `LogManager` (main.py:27-111): it creates the log directory, reconfigures
 * the `main_app` logger with a daily-rotating file handler and a console
 * handler, runs the retention pass and, when any of that fails, falls back
 * to `logging.basicConfig` and still hands back the `main_app` logger.
 */
module LogManagement {
  import opened Wrappers
  import opened Naming
  import opened Logs
  import opened Retention

  const DefaultLogDir: string := "logs"
  const DefaultRetentionDays: int := 30

  /**
   * The clock as setup sees it: `date` and `time` are the local reading that
   * names today's file (main.py:57), `epoch` the second at which the file
   * handler then creates that file, and `cleanupEpoch` the later reading the
   * retention pass takes for its cutoff (main.py:93).
   */
  datatype Clock = Clock(epoch: int, date: Date, time: TimeOfDay, cleanupEpoch: int)

  predicate ValidClock(c: Clock) { ValidDate(c.date) && ValidTime(c.time) }

  /** Where advanced setup can raise: creating the directory, or constructing one of the two handlers. */
  datatype SetupFault =
    | NoSetupFault
    | MkdirFails(reason: string)
    | FileHandlerFails(reason: string)
    | ConsoleHandlerFails(reason: string)

  /** The state setup touches: the `main_app` logger, the root logger and the log directory. */
  datatype Env = Env(mainApp: LoggerState, root: LoggerState, dir: DirState)

  /** The state after setup, and whether `self.logger` was (re)assigned to the `main_app` logger. */
  datatype SetupResult = SetupResult(env: Env, loggerSet: bool)

  const InitializedText: string := "Logging system initialized successfully"

  function FallbackText(reason: string): string { "Failed to setup advanced logging: " + reason }

  /** The file handler: today's file under the log directory, always at DEBUG, keeping `retentionDays` rotated segments. */
  function FileHandlerFor(logDir: string, retentionDays: int, d: Date): Handler
    requires ValidDate(d)
  {
    Handler(RotatingFile(PathOf(logDir, LogFileName(d)), retentionDays), Debug)
  }

  /** The console handler on standard output, at the verbosity threshold. */
  function ConsoleHandlerFor(verbose: bool): Handler
  {
    Handler(Console(Stdout), Threshold(verbose))
  }

  /** The fallback (main.py:81-88): `basicConfig` on the root logger, then one ERROR call on it. */
  function FallbackRoot(root: LoggerState, reason: string): (r: LoggerState)
    ensures r.records == root.records + [Record(Error, FallbackText(reason))]
    ensures |r.handlers| >= 1
  {
    var b := BasicConfig(root);
    b.(records := b.records + [Record(Error, FallbackText(reason))])
  }

  /** `setup_logging(verbose)` (main.py:35-88), step by step, with the fault that interrupts it. */
  function Setup(logDir: string, retentionDays: int, e: Env, verbose: bool, clock: Clock,
                 fault: SetupFault, listing: Listing): (r: SetupResult)
    requires ValidClock(clock)
    ensures |e.mainApp.records| <= |r.env.mainApp.records|
    ensures r.env.mainApp.records[..|e.mainApp.records|] == e.mainApp.records
  {
    if fault.MkdirFails? then
      SetupResult(e.(root := FallbackRoot(e.root, fault.reason)), false)
    else
      var dir1 := MkdirState(e.dir);
      var main1 := e.mainApp.(level := Threshold(verbose), handlers := []);
      if fault.FileHandlerFails? then
        SetupResult(Env(main1, FallbackRoot(e.root, fault.reason), dir1), true)
      else
        var dir2 := OpenedState(dir1, LogFileName(clock.date), clock.epoch);
        var main2 := main1.(handlers := [FileHandlerFor(logDir, retentionDays, clock.date)]);
        if fault.ConsoleHandlerFails? then
          SetupResult(Env(main2, FallbackRoot(e.root, fault.reason), dir2), true)
        else
          var swept := Cleanup(dir2.files, listing, Cutoff(clock.cleanupEpoch, retentionDays), logDir);
          var main3 := main2.(handlers := main2.handlers + [ConsoleHandlerFor(verbose)],
                              records := main2.records + swept.log + [Record(Info, InitializedText)]);
          assert main3.records[..|e.mainApp.records|] == e.mainApp.records;
          SetupResult(Env(main3, e.root, dir2.(files := swept.files)), true)
  }

  /**
   * A successful setup leaves the directory in place, exactly the file handler
   * then the console handler on the logger (whatever it held before), the
   * levels following `verbose`, the root logger untouched, and records the
   * retention pass's calls followed by one INFO confirmation.
   */
  lemma SetupSucceeds(logDir: string, retentionDays: int, e: Env, verbose: bool, clock: Clock, listing: Listing)
    requires ValidClock(clock)
    ensures var r := Setup(logDir, retentionDays, e, verbose, clock, NoSetupFault, listing);
      && r.loggerSet
      && r.env.dir.present
      && r.env.root == e.root
      && r.env.mainApp.level == Threshold(verbose)
      && r.env.mainApp.handlers == [Handler(RotatingFile(PathOf(logDir, LogFileName(clock.date)), retentionDays), Debug),
                                    Handler(Console(Stdout), if verbose then Debug else Info)]
      && var added := r.env.mainApp.records[|e.mainApp.records|..];
         |added| >= 1 && added[|added| - 1] == Record(Info, InitializedText)
         && forall k :: 0 <= k < |added| - 1 ==> added[k].level != Info
  {
    var r := Setup(logDir, retentionDays, e, verbose, clock, NoSetupFault, listing);
    var dir2 := OpenedState(MkdirState(e.dir), LogFileName(clock.date), clock.epoch);
    var swept := Cleanup(dir2.files, listing, Cutoff(clock.cleanupEpoch, retentionDays), logDir);
    assert r.env.mainApp.records[|e.mainApp.records|..] == swept.log + [Record(Info, InitializedText)];
    CleanupNeverLogsInfo(dir2.files, listing, Cutoff(clock.cleanupEpoch, retentionDays), logDir);
  }

  /** Setting up twice leaves the same handlers as setting up once: handlers never accumulate. */
  lemma SetupDoesNotAccumulateHandlers(logDir: string, retentionDays: int, e: Env, verbose: bool,
                                       clock1: Clock, clock2: Clock, listing1: Listing, listing2: Listing)
    requires ValidClock(clock1) && ValidClock(clock2) && clock1.date == clock2.date
    ensures var once := Setup(logDir, retentionDays, e, verbose, clock1, NoSetupFault, listing1);
            var twice := Setup(logDir, retentionDays, once.env, verbose, clock2, NoSetupFault, listing2);
            twice.env.mainApp.handlers == once.env.mainApp.handlers && |twice.env.mainApp.handlers| == 2
  {
  }

  /**
   * Any fault makes setup fall back exactly once: one ERROR call on the root
   * logger, which ends up with a handler; the `main_app` logger receives no
   * call; `self.logger` is assigned only when the directory was created first.
   */
  lemma SetupFallsBack(logDir: string, retentionDays: int, e: Env, verbose: bool, clock: Clock,
                       fault: SetupFault, listing: Listing)
    requires ValidClock(clock) && !fault.NoSetupFault?
    ensures var r := Setup(logDir, retentionDays, e, verbose, clock, fault, listing);
      && r.env.root.records == e.root.records + [Record(Error, "Failed to setup advanced logging: " + fault.reason)]
      && |r.env.root.handlers| >= 1
      && r.env.mainApp.records == e.mainApp.records
      && (r.loggerSet <==> !fault.MkdirFails?)
      && (fault.MkdirFails? ==> r.env.mainApp == e.mainApp && r.env.dir == e.dir)
      && (!fault.MkdirFails? ==> r.env.dir.present && r.env.mainApp.level == Threshold(verbose))
  {
  }

  /**
   * After a successful setup, today's log file is in the directory unless an
   * older file of the same name was already there and is past the cutoff,
   * provided the retention pass reads the clock no later than the retention
   * period after the file was created.
   */
  lemma TodaysLogFileSurvives(logDir: string, retentionDays: int, e: Env, verbose: bool, clock: Clock, listing: Listing)
    requires ValidClock(clock)
    requires clock.cleanupEpoch - clock.epoch <= retentionDays * SecondsPerDay
    requires var name := LogFileName(clock.date);
             name !in e.dir.files || e.dir.files[name].mtime >= Cutoff(clock.cleanupEpoch, retentionDays) || !e.dir.present
    ensures LogFileName(clock.date) in Setup(logDir, retentionDays, e, verbose, clock, NoSetupFault, listing).env.dir.files
  {
    var name := LogFileName(clock.date);
    var dir2 := OpenedState(MkdirState(e.dir), name, clock.epoch);
    RecentEntrySurvives(dir2.files, listing, Cutoff(clock.cleanupEpoch, retentionDays), logDir, name);
  }

  /**
   * With a retention of zero days the cutoff is the retention pass's own
   * reading, so a log file the handler has just created earlier than that
   * reading is deleted again, once the enumeration lists it.
   */
  lemma ZeroRetentionDeletesNewLogFile(logDir: string, e: Env, verbose: bool, clock: Clock, listing: Listing)
    requires ValidClock(clock) && clock.epoch < clock.cleanupEpoch
    requires !e.dir.present || LogFileName(clock.date) !in e.dir.files
    requires LogFileName(clock.date) in listing.names
    ensures LogFileName(clock.date) !in Setup(logDir, 0, e, verbose, clock, NoSetupFault, listing).env.dir.files
  {
    var name := LogFileName(clock.date);
    var dir2 := OpenedState(MkdirState(e.dir), name, clock.epoch);
    LogFileNamesMatch(clock.date, "");
    SweepKeepsExactlyUnexpired(dir2.files, listing.names, Cutoff(clock.cleanupEpoch, 0), logDir);
  }

  /** A successful setup applies the retention rule to the directory it opened today's file in. */
  lemma SetupAppliesRetention(logDir: string, retentionDays: int, e: Env, verbose: bool, clock: Clock, listing: Listing)
    requires ValidClock(clock)
    requires var openedFiles := OpenedState(MkdirState(e.dir), LogFileName(clock.date), clock.epoch).files;
             forall n :: n in openedFiles && MatchesLogPattern(n) ==> n in listing.names
    ensures var openedFiles := OpenedState(MkdirState(e.dir), LogFileName(clock.date), clock.epoch).files;
            var cutoff := Cutoff(clock.cleanupEpoch, retentionDays);
            Setup(logDir, retentionDays, e, verbose, clock, NoSetupFault, listing).env.dir.files
              == map n | n in openedFiles && !Expired(n, openedFiles[n], cutoff) :: openedFiles[n]
  {
    var openedFiles := OpenedState(MkdirState(e.dir), LogFileName(clock.date), clock.epoch).files;
    CleanupRemovesExactlyExpired(openedFiles, listing, Cutoff(clock.cleanupEpoch, retentionDays), logDir);
  }

  /** With `verbose` off, a DEBUG call reaches neither handler; INFO and above reach both, in either mode. */
  lemma ConfiguredDelivery(logDir: string, retentionDays: int, e: Env, verbose: bool, clock: Clock, listing: Listing, rec: Record)
    requires ValidClock(clock) && rec.level != NotSet
    ensures var m := Setup(logDir, retentionDays, e, verbose, clock, NoSetupFault, listing).env.mainApp;
      && (Severity(rec.level) >= Severity(Info) ==> forall h :: h in m.handlers ==> Delivered(m.level, h, rec))
      && (!verbose && rec.level == Debug ==> forall h :: h in m.handlers ==> !Delivered(m.level, h, rec))
      && (verbose ==> forall h :: h in m.handlers ==> Delivered(m.level, h, rec))
  {
    SetupSucceeds(logDir, retentionDays, e, verbose, clock, listing);
  }

  /** `LogManager` (main.py:27-33). */
  class LogManager {
    const logDir: string
    const retentionDays: int
    var logger: Logger?

    constructor (logDir: string := DefaultLogDir, retentionDays: int := DefaultRetentionDays)
      ensures this.logDir == logDir && this.retentionDays == retentionDays && logger == null
    {
      this.logDir := logDir;
      this.retentionDays := retentionDays;
      logger := null;
    }

    /**
     * `_cleanup_old_logs` (main.py:90-111) against the enumeration `listing`
     * taken at clock reading `now`; it logs through `self.logger` only when one is set.
     */
    method CleanupOldLogs(now: int, listing: Listing, dir: LogDirectory)
      modifies dir, logger
      ensures var swept := Cleanup(old(dir.files), listing, Cutoff(now, retentionDays), logDir);
        && dir.State() == old(dir.State()).(files := swept.files)
        && (logger != null ==> logger.State() == old(logger.State()).(records := old(logger.records) + swept.log))
    {
      var cutoff := Cutoff(now, retentionDays);
      SweepEntries(listing.names, cutoff, dir, logger);
      if listing.failure.Some? && logger != null {
        logger.Log(Error, FailedCleanupText(listing.failure.value));
      }
    }

    /**
     * The loop of `_cleanup_old_logs` (main.py:95-107) over the enumerated
     * names, in order; `lg` is `self.logger` as the pass found it.
     */
    method SweepEntries(names: seq<string>, cutoff: int, dir: LogDirectory, lg: Logger?)
      modifies dir, lg
      ensures var swept := Sweep(old(dir.files), names, cutoff, logDir);
        && dir.State() == old(dir.State()).(files := swept.files)
        && (lg != null ==> lg.State() == old(lg.State()).(records := old(lg.records) + swept.log))
    {
      ghost var files0 := dir.files;
      var i := 0;
      while i < |names|
        invariant 0 <= i <= |names|
        invariant dir.present == old(dir.present)
        invariant dir.files == Sweep(files0, names[..i], cutoff, logDir).files
        invariant lg != null ==> lg.level == old(lg.level) && lg.handlers == old(lg.handlers)
        invariant lg != null ==> lg.records == old(lg.records) + Sweep(files0, names[..i], cutoff, logDir).log
      {
        Advance(names, i, cutoff, dir, lg, files0, if lg != null then old(lg.records) else []);
        i := i + 1;
      }
      assert names[..i] == names;
    }

    /** Iteration `i` of the loop, as the step from the first `i` names to the first `i + 1`. */
    method Advance(names: seq<string>, i: nat, cutoff: int, dir: LogDirectory, lg: Logger?,
                   ghost files0: map<string, FileInfo>, ghost records0: seq<Record>)
      requires i < |names|
      requires dir.files == Sweep(files0, names[..i], cutoff, logDir).files
      requires lg != null ==> lg.records == records0 + Sweep(files0, names[..i], cutoff, logDir).log
      modifies dir, lg
      ensures dir.present == old(dir.present)
      ensures dir.files == Sweep(files0, names[..i + 1], cutoff, logDir).files
      ensures lg != null ==> lg.level == old(lg.level) && lg.handlers == old(lg.handlers)
      ensures lg != null ==> lg.records == records0 + Sweep(files0, names[..i + 1], cutoff, logDir).log
    {
      SweepStep(files0, names, i, cutoff, logDir);
      VisitEntry(names[i], cutoff, dir, lg);
    }

    /** One pass of the loop body of `_cleanup_old_logs` (main.py:96-107) on the entry `name`, logging through `lg`. */
    method VisitEntry(name: string, cutoff: int, dir: LogDirectory, lg: Logger?)
      modifies dir, lg
      ensures var v := Visit(old(dir.files), name, cutoff, logDir);
        && dir.State() == old(dir.State()).(files := v.files)
        && (lg != null ==> lg.State() == old(lg.State()).(records := old(lg.records) + v.log))
    {
      if MatchesLogPattern(name) {
        var path := PathOf(logDir, name);
        var st := dir.StatEntry(name, path);
        match st
        case StatFailed(err) =>
          if lg != null { lg.Log(Warning, FailedFileText(path, err)); }
        case Stat(mtime) =>
          if mtime < cutoff {
            var err := dir.Unlink(name, path);
            if err.None? {
              if lg != null { lg.Log(Debug, RemovedText(path)); }
            } else {
              if lg != null { lg.Log(Warning, FailedFileText(path, err.value)); }
            }
          }
      }
    }

    /** The fallback branch of `setup_logging` (main.py:81-88). */
    method FallBack(root: Logger, reason: string)
      modifies root
      ensures root.State() == FallbackRoot(old(root.State()), reason)
    {
      root.BasicConfigure();
      root.Log(Error, FallbackText(reason));
    }

    /**
     * `setup_logging(verbose)` (main.py:35-88). `mainApp` and `root` are the
     * loggers `logging.getLogger('main_app')` and `logging.getLogger()` return;
     * the result is always the `main_app` logger.
     */
    method SetupLogging(verbose: bool, clock: Clock, fault: SetupFault, listing: Listing,
                        mainApp: Logger, root: Logger, dir: LogDirectory) returns (lg: Logger)
      requires ValidClock(clock) && mainApp != root
      modifies this, mainApp, root, dir
      ensures lg == mainApp
      ensures logger == if fault.MkdirFails? then old(logger) else mainApp
      ensures var r := Setup(logDir, retentionDays, Env(old(mainApp.State()), old(root.State()), old(dir.State())),
                             verbose, clock, fault, listing);
        && mainApp.State() == r.env.mainApp
        && root.State() == r.env.root
        && dir.State() == r.env.dir
        && logger == (if r.loggerSet then mainApp else old(logger))
    {
      lg := mainApp;
      if fault.MkdirFails? {
        FallBack(root, fault.reason);
        return;
      }
      dir.Mkdir();
      logger := mainApp;
      mainApp.SetLevel(Threshold(verbose));
      mainApp.ClearHandlers();
      if fault.FileHandlerFails? {
        FallBack(root, fault.reason);
        return;
      }
      dir.Open(LogFileName(clock.date), clock.epoch);
      mainApp.AddHandler(FileHandlerFor(logDir, retentionDays, clock.date));
      if fault.ConsoleHandlerFails? {
        FallBack(root, fault.reason);
        return;
      }
      mainApp.AddHandler(ConsoleHandlerFor(verbose));
      CleanupOldLogs(clock.cleanupEpoch, listing, dir);
      mainApp.Log(Info, InitializedText);
    }
  }
}
