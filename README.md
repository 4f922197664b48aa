# A verified model of the greeting application's logging and error-handling core

The program prints `Hello, world!`. Around that it does three things that
carry rules, and this project models all three in Dafny:

1. **Retention cleanup** (`LogManager._cleanup_old_logs`). It scans the log
   directory for names matching `app_*.log*` and deletes each entry whose
   modification time is strictly earlier than `now - retention_days`. A failing
   entry is logged as a warning and the scan goes on. A failing enumeration is
   logged as an error. The method never raises, and it logs nothing while
   `self.logger` is unset.
2. **Logging setup** (`LogManager.setup_logging`). It creates the directory,
   sets the `main_app` logger to DEBUG or INFO, clears its handlers, and adds a
   daily-rotating file handler (always DEBUG) and then a stdout console handler
   (DEBUG or INFO). It then runs the cleanup and logs one confirmation. When
   directory creation or a handler construction raises, it falls back to
   `logging.basicConfig(level=INFO)`, logs "Failed to setup advanced logging: …"
   on the root logger, and still returns the `main_app` logger.
3. **Outcome classification and exit codes** (`Application.greet`,
   `Application.run`, `main`). `greet` wraps an ordinary failure in
   `ApplicationError("Failed to display greeting: …")` and lets an interrupt
   through. `run` maps each outcome to an exit code (0, 1, 130), a message on
   standard error and some log calls. It logs "Application shutdown" last on
   every path. `main` exits with `run`'s code, passes the parser's exit
   requests through, and turns a startup failure into exit code 1.

Layout, one module per file:

- `wrappers.dfy`: `Option`.
- `naming.dfy` (`Naming`): the zero-padded strftime fields, the log file name
  `app_YYYYMMDD.log`, the `%Y%m%d_%H%M%S` error id (each with its parser and a
  round-trip lemma), and the glob `app_*.log*` with a reference description
  and lemmas for both directions.
- `logs.dfy` (`Logs`): levels, handlers, log records, `basicConfig`, and a
  `Logger` class whose level, handler list and records change in place.
- `retention.dfy` (`Retention`): the directory (class `LogDirectory`, with
  `stat`/`unlink` failures given as inputs) and the cleanup
  specification (`Visit`, `Sweep`, `Cleanup`) with its lemmas.
- `log_manager.dfy` (`LogManagement`): the specification function `Setup`, its
  lemmas, and class `LogManager`. That class's `CleanupOldLogs` loop and
  `SetupLogging` are proved to match `Cleanup` and `Setup`.
- `application.dfy` (`App`): the exception kinds, `GreetSpec`, `Classify`,
  the run log, the shutdown lemma, the exit status, and classes `Streams` and
  `Application` holding `Greet` and `Run`, plus `MainEntry` for `main()`.

The environment is made of inputs:

- Clock readings: the local date and time that name today's file, the second
  at which the file handler creates it, and the later reading the retention
  pass takes for its cutoff (main.py:93). The two epoch readings are
  unconstrained: a clock stepped back, or a file server whose clock runs
  ahead, can make the cutoff reading earlier than the creation time.
- The directory listing: its names in enumeration order, then possibly an
  enumeration error.
- Injected faults: the setup step that raises, per-entry `stat`/`unlink`
  errors, what `print` raises, and a `greet` that raises directly (as the
  unit tests arrange it).
- The traceback text.

Logger records are the logging *calls* made on a logger, in order. Whether a
call reaches a handler is the separate predicate `Logs.Delivered`.

The console handler writes log lines to `sys.stdout` (main.py:70), so the
process's standard output interleaves them with the greeting. In the model,
`Streams.out` holds only the lines `print` wrote. The console handler's output
is its records, routed by `Delivered`.

Also, the unit test at tests/test_main.py:299-313 expects `app_20200101.log`
to survive because of a permission error. The file was just touched, so its
modification time is recent, and that is what saves it
(`Retention.RecentEntrySurvives`). The date in the name plays no part.

## Model

| member | source | states |
|---|---|---|
| `Naming.Pad` | main.py:57 | a strftime numeric field is exactly `w` digits and it reads back as `n` |
| `Naming.DateStamp` | main.py:57 | the `%Y%m%d` stamp is eight digits |
| `Naming.DateStampRoundTrip` | main.py:57 | parsing the `%Y%m%d` stamp of a valid date returns that date |
| `Naming.DateStampInjective` | main.py:57 | two different dates never share a log file stamp |
| `Naming.LogFileNameRoundTrip` | main.py:57 | today's file name is `app_` + stamp + `.log`, 16 characters, and the date can be read back from it |
| `Naming.ErrorId` | main.py:188 | the error id has the `%Y%m%d_%H%M%S` shape: 15 characters, `_` at index 8, digits elsewhere, and starts with the date stamp |
| `Naming.ErrorIdRoundTrip` | main.py:188 | parsing an error id gives back the date and time it was made from |
| `Naming.GlobInstanceMatches` | main.py:95 | every name of the form `app_` + any + `.log` + any is selected by the cleanup pattern |
| `Naming.MatchIsGlobInstance` | main.py:95 | every name the pattern selects has the form `app_` + any + `.log` + any (the converse direction) |
| `Naming.LogFileNamesMatch` | main.py:95 | today's file name and each of its rotated segments `app_YYYYMMDD.log.<suffix>` match `app_*.log*` |
| `Logs.Threshold` | main.py:43 | the logger and console level is DEBUG exactly when verbose and INFO exactly when not |
| `Logs.BasicConfig` | main.py:83-86 | `basicConfig(level=INFO)` gives a handler-less root logger one stderr handler and level INFO, and otherwise changes nothing |
| `Logs.BasicConfigIdempotent` | main.py:83-86 | a second `basicConfig` on a root logger the first one configured changes nothing: a repeated fallback adds no second handler |
| `Logs.Logger.SetLevel` | main.py:43 | `setLevel` changes the level only |
| `Logs.Logger.ClearHandlers` | main.py:46 | `handlers.clear()` empties the handler list only |
| `Logs.Logger.AddHandler` | main.py:67 | `addHandler` appends one handler only |
| `Logs.Logger.Log` | main.py:78 | a logging call appends one record at its level and changes nothing else |
| `Logs.Logger.BasicConfigure` | main.py:83-86 | the root logger's state becomes `BasicConfig` of its old state |
| `Retention.Cutoff` | main.py:93 | the cutoff is `now - retention_days` days, and it is not after `now` for a non-negative retention |
| `Retention.Visit` | main.py:96-107 | one iteration removes the entry exactly when it matches, its stat succeeds, its mtime is before the cutoff and its unlink succeeds, and otherwise leaves the directory as it was. It logs at most one record, at DEBUG or WARNING, and the DEBUG "Removed old log file" record exactly when it removed the entry. A matching name that is gone, whose stat fails, or whose unlink fails gets exactly one WARNING "Failed to process log file <path>: <error>" with that error. It logs nothing exactly when the name does not match or the entry is recent |
| `Retention.SweepStep` | main.py:95-107 | sweeping the first `i + 1` names is sweeping the first `i` and then visiting name `i`, with that visit's records appended to the log |
| `Retention.SweepOnlyRemoves` | main.py:95-107 | the loop over the enumerated names (`Sweep`) only removes entries and never changes one that stays. Its exact result is stated by `SweepKeepsExactlyUnexpired`, its log by `SweepLogExtends`, `VanishedEntryWarned`, `StatFailureWarned`, `FailedRemovalIsWarned` and `SweepLogsDebugOrWarning` |
| `Retention.Cleanup` | main.py:90-111 | when the enumeration fails, the last record of the pass is the ERROR "Failed to cleanup old logs: <error>". What it removes is stated by `CleanupRemovesExactlyExpired`, and its log levels by `CleanupNeverLogsInfo` |
| `Retention.SweepKeepsExactlyUnexpired` | main.py:95-107 | after the loop the directory is the old one minus exactly the listed entries whose name matches, whose stat succeeds, whose mtime is before the cutoff and whose unlink succeeds |
| `Retention.CleanupRemovesExactlyExpired` | main.py:93-111 | when the listing holds every entry whose name matches `app_*.log*` (what the glob returns), cleanup removes exactly the expired entries and leaves every other entry unchanged, whether or not the enumeration fails afterwards |
| `Retention.RecentEntrySurvives` | main.py:97-100 | an entry whose mtime is not before the cutoff survives unchanged, whatever date its name carries |
| `Retention.UnmatchedEntrySurvives` | main.py:95 | an entry whose name does not match `app_*.log*` survives unchanged, however old it is |
| `Retention.SweepLogExtends` | main.py:95-107 | the records for a prefix of the listing are a prefix of the records for the whole listing: the scan only appends |
| `Retention.FailedRemovalIsWarned` | main.py:101-107 | an expired entry whose unlink fails stays in the directory, and a warning naming its path and the error is logged, even when the name is listed more than once |
| `Retention.VanishedEntryWarned` | main.py:97-107 | a listed name that is no longer in the directory gets a warning with the FileNotFoundError text of its path |
| `Retention.StatFailureWarned` | main.py:97-107 | a matching entry whose `stat` fails stays in the directory, and a warning naming its path and the error is logged |
| `Retention.SweepLogsDebugOrWarning` | main.py:103-107 | the per-file loop logs only at DEBUG (removed) or WARNING (failed) |
| `Retention.CleanupNeverLogsInfo` | main.py:103-111 | the whole pass never logs at INFO, and logs at ERROR only when the enumeration failed |
| `Retention.MkdirState` | main.py:39 | after `mkdir(exist_ok=True)` the directory exists; an existing one is unchanged and a new one is empty |
| `Retention.OpenedState` | main.py:58-64 | after opening today's file it is in the directory; an existing file is untouched, and a new one gets mtime `now` while no other entry changes |
| `Retention.LogDirectory.Mkdir` | main.py:39 | the directory's new state is `MkdirState` of its old state |
| `Retention.LogDirectory.Open` | main.py:58-64 | the directory's new state is `OpenedState` of its old state |
| `Retention.LogDirectory.StatEntry` | main.py:97-98 | `stat` gives the entry's mtime, its stat error, or FileNotFoundError for a missing name |
| `Retention.LogDirectory.Unlink` | main.py:101 | `unlink` removes exactly that entry, or leaves the directory unchanged and reports the error |
| `LogManagement.FallbackRoot` | main.py:81-88 | the fallback adds exactly one ERROR record "Failed to setup advanced logging: …" to the root logger, and the root logger ends with a handler |
| `LogManagement.Setup` | main.py:35-88 | setup only appends to the `main_app` logger's records and never rewrites earlier ones |
| `LogManagement.SetupSucceeds` | main.py:39-79 | with no fault the directory exists, `self.logger` is set, the root logger is untouched, the logger level follows `verbose` and the handlers are exactly file (DEBUG, today's path, `backupCount = retention_days`) then console (stdout, DEBUG or INFO). The added records end with the INFO confirmation, and every earlier added record is not INFO |
| `LogManagement.SetupDoesNotAccumulateHandlers` | main.py:45-73 | calling setup a second time leaves the same two handlers as calling it once |
| `LogManagement.SetupFallsBack` | main.py:81-88 | any fault makes setup fall back exactly once. The root logger gets one ERROR record and at least one handler, and `main_app` gets no record. `self.logger` is set iff the directory was created first. After a mkdir failure the logger and directory are untouched; after a later failure the directory exists and the level follows `verbose` |
| `LogManagement.TodaysLogFileSurvives` | main.py:57-93 | when the retention pass reads the clock no later than the retention period after the file was created (at retention 0, no later than the creation second itself), today's log file is in the directory after a successful setup, unless a same-named file already there was past the cutoff |
| `LogManagement.ZeroRetentionDeletesNewLogFile` | main.py:57-101 | with `retention_days` 0, a log file the handler has just created is deleted by the retention pass that follows, as soon as the enumeration lists it, because the cutoff is the pass's own later reading of the clock |
| `LogManagement.SetupAppliesRetention` | main.py:76 | a successful setup applies the retention rule to the directory as it stands after today's file is opened |
| `LogManagement.ConfiguredDelivery` | main.py:43-71 | after a successful setup, INFO and above reach both handlers. In non-verbose mode a DEBUG record reaches neither, and in verbose mode every record reaches both |
| `LogManagement.LogManager.constructor` | main.py:30-33 | a new manager has the given directory and retention (defaults `logs`, 30) and no logger |
| `LogManagement.LogManager.CleanupOldLogs` | main.py:90-111 | the pass leaves the directory and `self.logger`'s records equal to the `Cleanup` specification, and touches no logger when `self.logger` is unset |
| `LogManagement.LogManager.SweepEntries` | main.py:95-107 | the loop over the enumerated names leaves the directory and the logger's records equal to `Sweep`, and touches no logger when there is none |
| `LogManagement.LogManager.Advance` | main.py:95-107 | iteration `i` of the loop takes the directory and the logger's records from `Sweep` of the first `i` names to `Sweep` of the first `i + 1` |
| `LogManagement.LogManager.VisitEntry` | main.py:96-107 | one pass of the loop body leaves the directory and the logger's records as `Visit` says, and touches no logger when there is none |
| `LogManagement.LogManager.FallBack` | main.py:81-88 | the root logger's state becomes `FallbackRoot` of its old state |
| `LogManagement.LogManager.SetupLogging` | main.py:35-88 | returns the `main_app` logger on every path. The loggers and directory end as `Setup` says. `self.logger` becomes `main_app` unless mkdir failed |
| `App.GreetSpec` | main.py:142-154 | greet completes exactly when the logger is set and print succeeds, and then it printed exactly `Hello, world!` once. An ordinary failure is logged as ERROR "Error in greeting function: <msg>" with a DEBUG traceback record, and becomes `ApplicationError("Failed to display greeting: " + msg)`. An interrupt passes through with only INFO records. With a logger, the first record is "Executing greeting function", and a success logs "Greeting displayed: Hello, world!". A missing logger raises a non-ApplicationError. The shutdown record is never among greet's records |
| `App.Classify` | main.py:167-194 | exit code 0 iff greet completed, 130 iff interrupted, 1 iff any other exception. Stderr gets `Error: <msg>` for an ApplicationError and the interruption notice for an interrupt. For an unexpected error it gets only the notice with the error id and the pointer to the logs. The log gets exactly "Application completed successfully" on success, exactly ERROR "Application error: <msg>" for an ApplicationError, exactly INFO "Application interrupted by user" for an interrupt, and for an unexpected error exactly the id-tagged ERROR record then the DEBUG traceback record. The shutdown record is never among the branch's records |
| `App.Attempt` | main.py:165 | the greeting step in `run` completes exactly when nothing raises, and only then prints the greeting. A failing `print` gives `greet`'s outcome; a `greet` that raises itself passes its exception on with no record. It never logs the shutdown record |
| `App.UnexpectedErrorHidesDetail` | main.py:186-194 | what the user sees for an unexpected error is independent of the exception text, which goes to the ERROR log record tagged with the id |
| `App.RunLog` | main.py:161-199 | the calls `run` adds after setup start with INFO "Application starting" and the DEBUG arguments record, end with the shutdown record, and hold exactly greet's and the branch's records in between. That the shutdown record occurs only once is `ShutdownLoggedOnceLast` |
| `App.SetupAddsNoShutdown` | main.py:35-88 | setup adds no shutdown record to the `main_app` logger on any path |
| `App.AppendedOnce` | main.py:196-199 | appending the shutdown record to calls that lack it makes it occur exactly once |
| `App.RunLogAppends` | main.py:161-199 | logging the two opening records, then greet's and the branch's records, then the shutdown record, extends the logger's records by exactly `RunLog` |
| `App.ShutdownClosesRun` | main.py:161-199 | when setup only extends the logger's records and adds no shutdown record, and greet and the branch add none either, the calls added after the original records end with the shutdown record and hold it exactly once |
| `App.ShutdownLoggedOnceLast` | main.py:196-199 | of every call a `run` adds to the `main_app` logger, on every setup path and every outcome, "Application shutdown" is the last and occurs exactly once |
| `App.ExitStatus` | main.py:202-224 | the process exits with 1 after a startup failure, with the parser's own code for an exit request, and otherwise with `run`'s code |
| `App.ExitStatusDocumented` | main.py:165-224 | with parser exit requests of 0 or 2, the exit status is one of 0, 1, 2, 130. 2 comes only from the parser, 130 only from an interrupt, and 0 only from help or an unfaulted greeting |
| `App.Streams.Print` | main.py:147 | `print` appends one line to standard output only |
| `App.Streams.PrintErr` | main.py:177 | `print(..., file=sys.stderr)` appends one line to standard error only |
| `App.Application.constructor` | main.py:117-119 | a new application owns a fresh default log manager and has no logger |
| `App.Application.Greet` | main.py:142-154 | the outcome, standard output and the logger's records are those of `GreetSpec`, and standard error is untouched |
| `App.Application.GreetStep` | main.py:165 | the greeting step's outcome, output and records are those of `Attempt` |
| `App.Application.Conclude` | main.py:167-194 | the exit code, standard error and the logger's records are those of `Classify` |
| `App.Application.Respond` | main.py:165-194 | the greeting step followed by the exception branches gives the code, streams and records of `Attempt` then `Classify` |
| `App.Application.Proceed` | main.py:161-199 | after setup, the logger receives the start and arguments records, greet's records, the branch's records and then the shutdown record. The code and streams are those of `Classify` |
| `App.Application.Run` | main.py:156-199 | `self.logger` becomes `main_app`, and so does the manager's logger unless mkdir failed. Loggers, directory, streams and exit code are the composition of `Setup`, `Attempt`, `Classify` and `RunLog` |
| `App.MainEntry` | main.py:202-224 | a startup failure prints the two critical lines to stderr and exits 1 with nothing else touched. A parser exit request exits with its code. Otherwise the process exits with `run`'s code after `run`'s effects. In every case the status is `ExitStatus` of the startup failure, the parse result and `run`'s code, which ties `ExitStatusDocumented` to it |

## Left out

- `Naming.MatchesLogPattern`: the glob is matched case-sensitively, as
  pathlib does on POSIX. On Windows pathlib's glob ignores case, so a name
  such as `APP_20240101.LOG` would also be selected there; the model does not
  select it.
- Real filesystem, clock and stream calls. They are replaced by the
  `LogDirectory` and `Streams` objects and by clock readings and a directory
  listing passed in as inputs. The listing may hold any names, in any order.
  A name that is missing or repeated is handled the way `stat` would handle
  it.
- `TimedRotatingFileHandler` internals: midnight rollover and its own
  `backupCount` pruning are library behaviour. The model records only the
  handler's path, level and `backupCount`, and the file it creates when it
  opens.
- Formatter strings, timestamp rendering in log lines, and traceback text. The
  traceback is an opaque input string.
- argparse: the parse result is an input, `Parsed(verbose)` or
  `ExitRequest(code)`. Option abbreviations and combined short flags are not
  modelled. On an exit request the model writes nothing to standard output
  or standard error, where argparse prints the help text or the usage and
  error message before it exits.
- Local time versus epoch time: the cutoff comparison is done in epoch
  seconds. The source compares naive local datetimes, which differ from this
  by the daylight-saving shift for files that straddle one. Sub-second mtimes
  are rounded to whole seconds.
- `Naming.Pad`: years below 1000 are always padded to four digits. Whether
  `%Y` pads them depends on the platform's strftime.
- `Retention.PathOf`: the join of the log directory and an entry name is
  textual, `logDir + "/" + name`. It matches pathlib's rendering only when
  `logDir` is already in pathlib's normal form. A directory written as `.`,
  with a trailing slash or with empty parts is rendered differently by
  pathlib (`Path(".") / n` prints as `n`), so the texts of the cleanup records
  and the file handler's path would differ from the program's.
- `Retention.Visit`: an mtime outside the range `datetime.fromtimestamp`
  accepts (outside years 1 to 9999, or beyond the platform's `time_t`) makes
  the program raise at main.py:98 and log a warning, keeping the entry. The
  model compares any integer mtime with the cutoff. It deletes such an entry
  dated before year 1 with a DEBUG record, and keeps one dated after year
  9999 with no record. The error text is platform dependent.
- An `OverflowError` while computing the cutoff for an enormous
  `retention_days`. It would take the "Failed to cleanup old logs" path, but the
  model computes with unbounded integers.
- Logging level inheritance: a logger at NOTSET defers to its parent, and
  records propagate to the root logger's handlers. `Logs.Delivered` covers only
  the configured loggers' own handlers.
- Exceptions from logging calls (the library handles them), from writes to
  standard error, and from `basicConfig` itself. All of these are treated as
  never raising.
- The unreachable `success == False` branch of `run` (main.py:170-172):
  `greet` only ever returns true.
- A `KeyboardInterrupt` arriving inside `setup_logging` before `self.logger`
  is set.
- The argument parser construction (main.py:121-140). A failure there, or in
  `Application()`, is the `startupFailure` input of `MainEntry`.
- `App.MainEntry`: in the parsed case it states the effects of `run`, but not
  the state of the fresh `Application` object it builds, which nothing outside
  `main` can observe.
