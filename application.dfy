/**
 * `Application` and `main` (main.py:22-24, 114-224): the greeting, the
 * classification of what it raises into an exit code, a message on standard
 * error and log calls, the shutdown record written on every path, and the
 * process exit status.
 */
module App {
  import opened Wrappers
  import opened Naming
  import opened Logs
  import opened Retention
  import opened LogManagement

  /**
   * What `run` tells apart: an `ApplicationError`, a `KeyboardInterrupt` (not
   * an `Exception`), and any other `Exception`; `msg` is `str(e)`.
   */
  datatype Exc = AppError(msg: string) | Interrupt | OtherError(msg: string)

  /** How the call `self.greet()` ends. */
  datatype Outcome = Completed | Raised(exc: Exc)

  /**
   * Where the greeting step can fail: `print` raising, or the call to `greet`
   * itself raising without going through its body (a replaced or broken `greet`).
   */
  datatype GreetFault = NoGreetFault | PrintRaises(exc: Exc) | GreetRaises(exc: Exc)

  /** What the greeting step did: how it ended, its logging calls and the lines it printed. */
  datatype GreetEffect = GreetEffect(outcome: Outcome, log: seq<Record>, printed: seq<string>)

  /** Exit code, lines written to standard error and logging calls of the branch `run` takes. */
  datatype Verdict = Verdict(code: int, stderr: seq<string>, log: seq<Record>)

  /** What argument parsing produces: the `verbose` flag, or a request to exit (0 for `--help`, 2 for bad usage). */
  datatype ParseResult = Parsed(verbose: bool) | ExitRequest(code: int)

  const Greeting: string := "Hello, world!"
  const ShutdownText: string := "Application shutdown"
  const InterruptNotice: string := "\nApplication interrupted by user."
  const LogPointer: string := "Please check the log files for more details."
  /** What `greet` raises when `self.logger` is None: its except-clause dereferences it again. */
  const NoLoggerError: string := "'NoneType' object has no attribute 'error'"

  function ShutdownRecord(): Record { Record(Info, ShutdownText) }

  /** The message `greet` wraps an ordinary failure in (main.py:154). */
  function WrapText(msg: string): string { "Failed to display greeting: " + msg }

  function UnexpectedNotice(errorId: string): string { "An unexpected error occurred. Error ID: " + errorId }

  /** `vars(args)` as logged at DEBUG (main.py:162). */
  function ArgsRepr(verbose: bool): string
  {
    if verbose then "{'verbose': True}" else "{'verbose': False}"
  }

  /**
   * `greet` (main.py:142-154): it prints the greeting once; an ordinary failure
   * is logged and rethrown as an `ApplicationError`; an interrupt passes through.
   */
  function GreetSpec(hasLogger: bool, printFault: Option<Exc>, traceback: string): (g: GreetEffect)
    ensures g.outcome.Completed? <==> hasLogger && printFault.None?
    ensures g.printed == if g.outcome.Completed? then [Greeting] else []
    ensures hasLogger && printFault == Some(Interrupt) ==> g.outcome == Raised(Interrupt)
    ensures hasLogger && printFault.Some? && !printFault.value.Interrupt? ==>
              g.outcome == Raised(AppError(WrapText(printFault.value.msg)))
    ensures !hasLogger ==> g.outcome.Raised? && g.outcome.exc.OtherError? && g.log == []
    ensures hasLogger ==> |g.log| >= 1 && g.log[0] == Record(Info, "Executing greeting function")
    ensures g.outcome.Completed? ==> Record(Info, "Greeting displayed: " + Greeting) in g.log
    ensures hasLogger && printFault.Some? && !printFault.value.Interrupt? ==>
              Record(Error, "Error in greeting function: " + printFault.value.msg) in g.log
              && Record(Debug, "Greeting function traceback: " + traceback) in g.log
    ensures hasLogger && printFault == Some(Interrupt) ==> forall r :: r in g.log ==> r.level == Info
    ensures forall r :: r in g.log ==> r != ShutdownRecord()
  {
    if !hasLogger then GreetEffect(Raised(OtherError(NoLoggerError)), [], [])
    else
      var start := [Record(Info, "Executing greeting function")];
      match printFault
      case None => GreetEffect(Completed, start + [Record(Info, "Greeting displayed: " + Greeting)], [Greeting])
      case Some(Interrupt) => GreetEffect(Raised(Interrupt), start, [])
      case Some(e) =>
        GreetEffect(Raised(AppError(WrapText(e.msg))),
                    start + [Record(Error, "Error in greeting function: " + e.msg),
                             Record(Debug, "Greeting function traceback: " + traceback)],
                    [])
  }

  /**
   * The greeting step of `run`, where `self.logger` is always set; `greet`
   * itself may also raise before it reaches `print`.
   */
  function Attempt(fault: GreetFault, traceback: string): (g: GreetEffect)
    ensures g.outcome.Completed? <==> fault.NoGreetFault?
    ensures g.printed == if fault.NoGreetFault? then [Greeting] else []
    ensures fault.PrintRaises? ==>
              g.outcome == if fault.exc.Interrupt? then Raised(Interrupt) else Raised(AppError(WrapText(fault.exc.msg)))
    ensures fault.GreetRaises? ==> g.outcome == Raised(fault.exc) && g.log == []
    ensures forall r :: r in g.log ==> r != ShutdownRecord()
  {
    match fault
    case NoGreetFault => GreetSpec(true, None, traceback)
    case PrintRaises(e) => GreetSpec(true, Some(e), traceback)
    case GreetRaises(e) => GreetEffect(Raised(e), [], [])
  }

  /**
   * The except-clauses of `run` (main.py:167-194): the exit code, what goes to
   * standard error and what is logged, for each way the greeting step ends.
   */
  function Classify(o: Outcome, errorId: string, traceback: string): (v: Verdict)
    ensures v.code == 0 <==> o.Completed?
    ensures v.code == 130 <==> o == Raised(Interrupt)
    ensures v.code == 1 <==> o.Raised? && !o.exc.Interrupt?
    ensures o.Completed? ==> v.stderr == []
    ensures o.Raised? && o.exc.AppError? ==> v.stderr == ["Error: " + o.exc.msg]
    ensures o == Raised(Interrupt) ==> v.stderr == [InterruptNotice]
    ensures o.Raised? && o.exc.OtherError? ==> v.stderr == [UnexpectedNotice(errorId), LogPointer]
    ensures o.Completed? ==> v.log == [Record(Info, "Application completed successfully")]
    ensures o.Raised? && o.exc.AppError? ==> v.log == [Record(Error, "Application error: " + o.exc.msg)]
    ensures o == Raised(Interrupt) ==> v.log == [Record(Info, "Application interrupted by user")]
    ensures o.Raised? && o.exc.OtherError? ==>
              v.log == [Record(Error, "Unexpected error [" + errorId + "]: " + o.exc.msg),
                        Record(Debug, "Unexpected error traceback [" + errorId + "]: " + traceback)]
    ensures forall r :: r in v.log ==> r != ShutdownRecord()
  {
    match o
    case Completed => Verdict(0, [], [Record(Info, "Application completed successfully")])
    case Raised(AppError(m)) => Verdict(1, ["Error: " + m], [Record(Error, "Application error: " + m)])
    case Raised(Interrupt) => Verdict(130, [InterruptNotice], [Record(Info, "Application interrupted by user")])
    case Raised(OtherError(m)) =>
      Verdict(1, [UnexpectedNotice(errorId), LogPointer],
              [Record(Error, "Unexpected error [" + errorId + "]: " + m),
               Record(Debug, "Unexpected error traceback [" + errorId + "]: " + traceback)])
  }

  /** What an unexpected failure shows the user does not depend on its text: that goes to the log only. */
  lemma UnexpectedErrorHidesDetail(m1: string, m2: string, errorId: string, tb1: string, tb2: string)
    ensures Classify(Raised(OtherError(m1)), errorId, tb1).stderr == Classify(Raised(OtherError(m2)), errorId, tb2).stderr
    ensures Record(Error, "Unexpected error [" + errorId + "]: " + m1) in Classify(Raised(OtherError(m1)), errorId, tb1).log
  {
  }

  /** The logging calls `run` makes after setup, ending with the `finally` shutdown record (main.py:161-199). */
  function RunLog(verbose: bool, g: GreetEffect, v: Verdict): (rs: seq<Record>)
    ensures |rs| >= 3 && rs[0] == Record(Info, "Application starting")
    ensures rs[1] == Record(Debug, "Command line arguments: " + ArgsRepr(verbose))
    ensures rs[|rs| - 1] == ShutdownRecord()
    ensures |rs| == 3 + |g.log| + |v.log|
  {
    [Record(Info, "Application starting"), Record(Debug, "Command line arguments: " + ArgsRepr(verbose))]
      + g.log + v.log + [ShutdownRecord()]
  }

  /** The four stages of `run`'s logging calls add up to `RunLog`. */
  lemma RunLogAppends(start: seq<Record>, afterOpening: seq<Record>, responded: seq<Record>, finished: seq<Record>,
                      verbose: bool, g: GreetEffect, v: Verdict)
    requires afterOpening == start + [Record(Info, "Application starting"), Record(Debug, "Command line arguments: " + ArgsRepr(verbose))]
    requires responded == afterOpening + g.log + v.log
    requires finished == responded + [Record(Info, ShutdownText)]
    ensures finished == start + RunLog(verbose, g, v)
  {
  }

  function Count(rs: seq<Record>, x: Record): nat
    decreases |rs|
  {
    if rs == [] then 0 else Count(rs[..|rs| - 1], x) + (if rs[|rs| - 1] == x then 1 else 0)
  }

  lemma {:induction false} CountAppend(a: seq<Record>, b: seq<Record>, x: Record)
    ensures Count(a + b, x) == Count(a, x) + Count(b, x)
    decreases |b|
  {
    if b != [] {
      var b' := b[..|b| - 1];
      assert (a + b)[..|a + b| - 1] == a + b';
      CountAppend(a, b', x);
    } else {
      assert a + b == a;
    }
  }

  lemma {:induction false} CountAbsent(a: seq<Record>, x: Record)
    requires x !in a
    ensures Count(a, x) == 0
    decreases |a|
  {
    if a != [] {
      CountAbsent(a[..|a| - 1], x);
    }
  }

  /** Appending one record to a sequence that lacks it makes it occur exactly once, last. */
  lemma AppendedOnce(before: seq<Record>, x: Record)
    requires x !in before
    ensures Count(before + [x], x) == 1
  {
    CountAbsent(before, x);
    CountAppend(before, [x], x);
    assert [x][..0] == [];
  }

  /** Setup adds no shutdown record to the `main_app` logger, on any path. */
  lemma SetupAddsNoShutdown(logDir: string, retentionDays: int, e: Env, verbose: bool, setupClock: Clock,
                            setupFault: SetupFault, listing: Listing)
    requires ValidClock(setupClock)
    ensures ShutdownRecord() !in Setup(logDir, retentionDays, e, verbose, setupClock, setupFault, listing).env.mainApp.records[|e.mainApp.records|..]
  {
    if setupFault.NoSetupFault? {
      SetupSucceeds(logDir, retentionDays, e, verbose, setupClock, listing);
    } else {
      SetupFallsBack(logDir, retentionDays, e, verbose, setupClock, setupFault, listing);
    }
  }

  /**
   * Every `run` logs "Application shutdown" exactly once among the calls it
   * adds, as the last of them, whichever branch it takes and whatever setup did.
   */
  lemma ShutdownLoggedOnceLast(logDir: string, retentionDays: int, e: Env, verbose: bool, setupClock: Clock,
                               setupFault: SetupFault, listing: Listing, greetFault: GreetFault,
                               errorId: string, traceback: string)
    requires ValidClock(setupClock)
    ensures var s := Setup(logDir, retentionDays, e, verbose, setupClock, setupFault, listing);
            var g := Attempt(greetFault, traceback);
            var v := Classify(g.outcome, errorId, traceback);
            var added := (s.env.mainApp.records + RunLog(verbose, g, v))[|e.mainApp.records|..];
            |added| >= 1 && added[|added| - 1] == ShutdownRecord() && Count(added, ShutdownRecord()) == 1
  {
    var before := Setup(logDir, retentionDays, e, verbose, setupClock, setupFault, listing).env.mainApp.records;
    SetupAddsNoShutdown(logDir, retentionDays, e, verbose, setupClock, setupFault, listing);
    var g := Attempt(greetFault, traceback);
    ShutdownClosesRun(e.mainApp.records, before, verbose, g, Classify(g.outcome, errorId, traceback));
  }

  /**
   * The shutdown record closes the calls `run` adds after `prefix`, once, when
   * setup (which only extends `prefix` to `before`) and the branches add none.
   */
  lemma ShutdownClosesRun(prefix: seq<Record>, before: seq<Record>, verbose: bool, g: GreetEffect, v: Verdict)
    requires |prefix| <= |before| && before[..|prefix|] == prefix
    requires ShutdownRecord() !in before[|prefix|..]
    requires ShutdownRecord() !in g.log && ShutdownRecord() !in v.log
    ensures var added := (before + RunLog(verbose, g, v))[|prefix|..];
            |added| >= 1 && added[|added| - 1] == ShutdownRecord() && Count(added, ShutdownRecord()) == 1
  {
    var fromSetup := before[|prefix|..];
    var body := [Record(Info, "Application starting"), Record(Debug, "Command line arguments: " + ArgsRepr(verbose))]
                + g.log + v.log;
    assert ShutdownRecord() !in body;
    assert RunLog(verbose, g, v) == body + [ShutdownRecord()];
    var added := (before + RunLog(verbose, g, v))[|prefix|..];
    assert added == (fromSetup + body) + [ShutdownRecord()];
    AppendedOnce(fromSetup + body, ShutdownRecord());
  }

  /** The exit status of `main` (main.py:202-224): startup failure 1, a parser exit request as it is, else `run`'s code. */
  function ExitStatus(startupFailure: Option<string>, parse: ParseResult, runCode: int): (status: int)
    ensures startupFailure.Some? ==> status == 1
    ensures startupFailure.None? && parse.ExitRequest? ==> status == parse.code
    ensures startupFailure.None? && parse.Parsed? ==> status == runCode
  {
    if startupFailure.Some? then 1
    else match parse
      case ExitRequest(c) => c
      case Parsed(_) => runCode
  }

  /**
   * The process exits with one of the documented codes 0, 1, 2 and 130 when
   * the parser only asks for 0 or 2; 130 means an interrupt, 2 comes from the parser only.
   */
  lemma ExitStatusDocumented(startupFailure: Option<string>, parse: ParseResult, greetFault: GreetFault,
                             errorId: string, traceback: string)
    requires parse.ExitRequest? ==> parse.code == 0 || parse.code == 2
    ensures var status := ExitStatus(startupFailure, parse,
                                     Classify(Attempt(greetFault, traceback).outcome, errorId, traceback).code);
      && status in {0, 1, 2, 130}
      && (status == 2 ==> startupFailure.None? && parse == ExitRequest(2))
      && (status == 130 ==> Attempt(greetFault, traceback).outcome == Raised(Interrupt))
      && (status == 0 ==> startupFailure.None? && (parse == ExitRequest(0) || greetFault.NoGreetFault?))
  {
    var g := Attempt(greetFault, traceback);
    if g.outcome.Completed? {
      assert !greetFault.PrintRaises? && !greetFault.GreetRaises?;
    }
  }

  const CriticalPrefix: string := "Critical error during application startup: "
  const NoLoggingNotice: string := "Unable to initialize logging system."

  /** The process's standard output and error, as the lines `print` wrote, in order. */
  class Streams {
    var out: seq<string>
    var err: seq<string>

    constructor ()
      ensures out == [] && err == []
    {
      out := [];
      err := [];
    }

    method Print(line: string)
      modifies this
      ensures out == old(out) + [line] && err == old(err)
    {
      out := out + [line];
    }

    method PrintErr(line: string)
      modifies this
      ensures err == old(err) + [line] && out == old(out)
    {
      err := err + [line];
    }
  }

  /** What a `run` does to the loggers, the directory and the streams, and the code it returns. */
  twostate predicate RanTo(logDir: string, retentionDays: int, verbose: bool, setupClock: Clock, setupFault: SetupFault, listing: Listing,
                           greetFault: GreetFault, errorClock: Clock, traceback: string,
                           mainApp: Logger, root: Logger, dir: LogDirectory, streams: Streams, code: int)
    requires ValidClock(setupClock) && ValidClock(errorClock)
    reads mainApp, root, dir, streams
  {
    var s := Setup(logDir, retentionDays, Env(old(mainApp.State()), old(root.State()), old(dir.State())),
                   verbose, setupClock, setupFault, listing);
    var g := Attempt(greetFault, traceback);
    var v := Classify(g.outcome, ErrorId(errorClock.date, errorClock.time), traceback);
    && code == v.code
    && streams.out == old(streams.out) + g.printed
    && streams.err == old(streams.err) + v.stderr
    && mainApp.State() == s.env.mainApp.(records := s.env.mainApp.records + RunLog(verbose, g, v))
    && root.State() == s.env.root
    && dir.State() == s.env.dir
  }

  /** `Application` (main.py:114-199). */
  class Application {
    const logManager: LogManager
    var logger: Logger?

    constructor ()
      ensures fresh(logManager) && logger == null
      ensures logManager.logDir == DefaultLogDir && logManager.retentionDays == DefaultRetentionDays
      ensures logManager.logger == null
    {
      logManager := new LogManager();
      logger := null;
    }

    /** `greet` (main.py:142-154); `printFault` is what `print` raises, if anything. */
    method Greet(printFault: Option<Exc>, traceback: string, streams: Streams) returns (o: Outcome)
      modifies logger, streams
      ensures var g := GreetSpec(logger != null, printFault, traceback);
        && o == g.outcome
        && streams.out == old(streams.out) + g.printed && streams.err == old(streams.err)
        && (logger != null ==> logger.State() == old(logger.State()).(records := old(logger.records) + g.log))
    {
      if logger == null {
        o := Raised(OtherError(NoLoggerError));
        return;
      }
      logger.Log(Info, "Executing greeting function");
      match printFault
      case None =>
        streams.Print(Greeting);
        logger.Log(Info, "Greeting displayed: " + Greeting);
        o := Completed;
      case Some(Interrupt) =>
        o := Raised(Interrupt);
      case Some(e) =>
        logger.Log(Error, "Error in greeting function: " + e.msg);
        logger.Log(Debug, "Greeting function traceback: " + traceback);
        o := Raised(AppError(WrapText(e.msg)));
    }

    /** The greeting step of `run` (main.py:165): `greet`, or the exception the call raises directly. */
    method GreetStep(greetFault: GreetFault, traceback: string, streams: Streams) returns (o: Outcome)
      requires logger != null
      modifies logger, streams
      ensures var g := Attempt(greetFault, traceback);
        && o == g.outcome
        && streams.out == old(streams.out) + g.printed && streams.err == old(streams.err)
        && logger.State() == old(logger.State()).(records := old(logger.records) + g.log)
    {
      match greetFault
      case NoGreetFault => o := Greet(None, traceback, streams);
      case PrintRaises(e) => o := Greet(Some(e), traceback, streams);
      case GreetRaises(e) => o := Raised(e);
    }

    /** The branch of `run` that handles the outcome (main.py:167-194). */
    method Conclude(o: Outcome, errorId: string, traceback: string, streams: Streams) returns (code: int)
      requires logger != null
      modifies logger, streams
      ensures var v := Classify(o, errorId, traceback);
        && code == v.code
        && streams.out == old(streams.out) && streams.err == old(streams.err) + v.stderr
        && logger.State() == old(logger.State()).(records := old(logger.records) + v.log)
    {
      match o
      case Completed =>
        logger.Log(Info, "Application completed successfully");
        code := 0;
      case Raised(AppError(m)) =>
        logger.Log(Error, "Application error: " + m);
        streams.PrintErr("Error: " + m);
        code := 1;
      case Raised(Interrupt) =>
        logger.Log(Info, "Application interrupted by user");
        streams.PrintErr(InterruptNotice);
        code := 130;
      case Raised(OtherError(m)) =>
        logger.Log(Error, "Unexpected error [" + errorId + "]: " + m);
        logger.Log(Debug, "Unexpected error traceback [" + errorId + "]: " + traceback);
        streams.PrintErr(UnexpectedNotice(errorId));
        streams.PrintErr(LogPointer);
        code := 1;
    }

    /** The greeting step of `run` and the except-clause it ends in (main.py:165-194). */
    method Respond(greetFault: GreetFault, errorId: string, traceback: string, streams: Streams) returns (code: int)
      requires logger != null
      modifies logger, streams
      ensures var g := Attempt(greetFault, traceback);
              var v := Classify(g.outcome, errorId, traceback);
        && code == v.code
        && streams.out == old(streams.out) + g.printed
        && streams.err == old(streams.err) + v.stderr
        && logger.State() == old(logger.State()).(records := old(logger.records) + g.log + v.log)
    {
      var o := GreetStep(greetFault, traceback, streams);
      code := Conclude(o, errorId, traceback, streams);
    }

    /** The body of `run` after setup (main.py:161-199): greet, classify, and log the shutdown record last. */
    method Proceed(verbose: bool, greetFault: GreetFault, errorId: string, traceback: string, streams: Streams)
      returns (code: int)
      requires logger != null
      modifies logger, streams
      ensures var g := Attempt(greetFault, traceback);
              var v := Classify(g.outcome, errorId, traceback);
        && code == v.code
        && streams.out == old(streams.out) + g.printed
        && streams.err == old(streams.err) + v.stderr
        && logger.State() == old(logger.State()).(records := old(logger.records) + RunLog(verbose, g, v))
    {
      ghost var start := old(logger.records);
      logger.Log(Info, "Application starting");
      logger.Log(Debug, "Command line arguments: " + ArgsRepr(verbose));
      ghost var afterOpening := logger.records;
      code := Respond(greetFault, errorId, traceback, streams);
      ghost var responded := logger.records;
      logger.Log(Info, ShutdownText);
      ghost var g := Attempt(greetFault, traceback);
      ghost var v := Classify(g.outcome, errorId, traceback);
      RunLogAppends(start, afterOpening, responded, logger.records, verbose, g, v);
    }

    /**
     * `run(args)` (main.py:156-199): set up logging through the log manager,
     * then proceed. The clocks are the readings taken at setup and when an
     * unexpected error is reported.
     */
    method Run(verbose: bool, setupClock: Clock, setupFault: SetupFault, listing: Listing,
               greetFault: GreetFault, errorClock: Clock, traceback: string,
               mainApp: Logger, root: Logger, dir: LogDirectory, streams: Streams) returns (code: int)
      requires ValidClock(setupClock) && ValidClock(errorClock) && mainApp != root
      modifies this, logManager, mainApp, root, dir, streams
      ensures logger == mainApp
      ensures logManager.logger == if setupFault.MkdirFails? then old(logManager.logger) else mainApp
      ensures RanTo(logManager.logDir, logManager.retentionDays, verbose, setupClock, setupFault, listing, greetFault, errorClock, traceback,
                    mainApp, root, dir, streams, code)
    {
      var lg := logManager.SetupLogging(verbose, setupClock, setupFault, listing, mainApp, root, dir);
      logger := lg;
      code := Proceed(verbose, greetFault, ErrorId(errorClock.date, errorClock.time), traceback, streams);
    }
  }

  /**
   * `main()` (main.py:202-224). `startupFailure` is the text of an exception
   * raised while building the application; `parse` is what argument parsing gave.
   */
  method MainEntry(startupFailure: Option<string>, parse: ParseResult, setupClock: Clock, setupFault: SetupFault,
                   listing: Listing, greetFault: GreetFault, errorClock: Clock, traceback: string,
                   mainApp: Logger, root: Logger, dir: LogDirectory, streams: Streams) returns (status: int)
    requires ValidClock(setupClock) && ValidClock(errorClock) && mainApp != root
    modifies mainApp, root, dir, streams
    ensures startupFailure.Some? ==>
      && status == 1
      && streams.err == old(streams.err) + [CriticalPrefix + startupFailure.value, NoLoggingNotice]
      && streams.out == old(streams.out)
      && mainApp.State() == old(mainApp.State()) && root.State() == old(root.State()) && dir.State() == old(dir.State())
    ensures startupFailure.None? && parse.ExitRequest? ==>
      && status == parse.code
      && streams.out == old(streams.out) && streams.err == old(streams.err)
      && mainApp.State() == old(mainApp.State()) && root.State() == old(root.State()) && dir.State() == old(dir.State())
    ensures status == ExitStatus(startupFailure, parse,
                                 Classify(Attempt(greetFault, traceback).outcome, ErrorId(errorClock.date, errorClock.time), traceback).code)
    ensures startupFailure.None? && parse.Parsed? ==>
      RanTo(DefaultLogDir, DefaultRetentionDays, parse.verbose, setupClock, setupFault, listing, greetFault, errorClock, traceback,
                 mainApp, root, dir, streams, status)
  {
    if startupFailure.Some? {
      streams.PrintErr(CriticalPrefix + startupFailure.value);
      streams.PrintErr(NoLoggingNotice);
      return 1;
    }
    var app := new Application();
    match parse
    case ExitRequest(c) =>
      status := c;
    case Parsed(verbose) =>
      status := app.Run(verbose, setupClock, setupFault, listing, greetFault, errorClock, traceback,
                        mainApp, root, dir, streams);
  }
}
