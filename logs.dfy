/**
 * The parts of Python's `logging` library the program drives: severities,
 * handlers (sinks with a threshold) and a logger object whose level and
 * handler list are changed in place and which receives logging calls.
 */
module Logs {
  /** Python's logging levels, NOTSET (0) to ERROR (40). */
  datatype Level = NotSet | Debug | Info | Warning | Error

  function Severity(l: Level): nat
  {
    match l
    case NotSet => 0
    case Debug => 10
    case Info => 20
    case Warning => 30
    case Error => 40
  }

  /** The level the logger and the console handler get: DEBUG when verbose, INFO otherwise (main.py:43, 71). */
  function Threshold(verbose: bool): (l: Level)
    ensures l == Debug <==> verbose
    ensures l == Info <==> !verbose
  {
    if verbose then Debug else Info
  }

  datatype Stream = Stdout | Stderr

  /** Where a handler writes: a daily-rotating file, or a console stream. */
  datatype Sink = RotatingFile(path: string, backupCount: int) | Console(stream: Stream)

  datatype Handler = Handler(sink: Sink, level: Level)

  /** One logging call: its severity and its message text. */
  datatype Record = Record(level: Level, text: string)

  /** A snapshot of a logger object. */
  datatype LoggerState = LoggerState(level: Level, handlers: seq<Handler>, records: seq<Record>)

  /**
   * A record reaches a handler when it passes both the logger's level and the
   * handler's level (a logger at NOTSET is not modelled here: it defers to its parent).
   */
  predicate Delivered(loggerLevel: Level, h: Handler, r: Record)
  {
    Severity(r.level) >= Severity(loggerLevel) && Severity(r.level) >= Severity(h.level)
  }

  /**
   * Python's `logging.basicConfig(level=INFO)`: when the root logger has no
   * handler yet, it gets one stderr handler and level INFO; otherwise nothing changes.
   */
  function BasicConfig(root: LoggerState): (r: LoggerState)
    ensures r.records == root.records
    ensures root.handlers != [] ==> r == root
    ensures root.handlers == [] ==> r.level == Info && r.handlers == [Handler(Console(Stderr), NotSet)]
    ensures |r.handlers| >= 1
  {
    if root.handlers == [] then root.(level := Info, handlers := [Handler(Console(Stderr), NotSet)])
    else root
  }

  lemma BasicConfigIdempotent(root: LoggerState)
    ensures BasicConfig(BasicConfig(root)) == BasicConfig(root)
  {
  }

  /**
   * A `logging.Logger`: its level and handler list are changed in place;
   * `records` holds every logging call made on it, in order.
   */
  class Logger {
    var level: Level
    var handlers: seq<Handler>
    var records: seq<Record>

    constructor ()
      ensures level == NotSet && handlers == [] && records == []
    {
      level := NotSet;
      handlers := [];
      records := [];
    }

    function State(): LoggerState
      reads this
    {
      LoggerState(level, handlers, records)
    }

    method SetLevel(l: Level)
      modifies this
      ensures State() == old(State()).(level := l)
    {
      level := l;
    }

    method ClearHandlers()
      modifies this
      ensures State() == old(State()).(handlers := [])
    {
      handlers := [];
    }

    method AddHandler(h: Handler)
      modifies this
      ensures State() == old(State()).(handlers := old(handlers) + [h])
    {
      handlers := handlers + [h];
    }

    /** `logger.debug(...)`, `logger.info(...)`, ...: one call at the given level. */
    method Log(l: Level, text: string)
      modifies this
      ensures State() == old(State()).(records := old(records) + [Record(l, text)])
    {
      records := records + [Record(l, text)];
    }

    /** `logging.basicConfig(level=INFO, ...)` applied to this (root) logger. */
    method BasicConfigure()
      modifies this
      ensures State() == BasicConfig(old(State()))
    {
      if handlers == [] {
        level := Info;
        handlers := [Handler(Console(Stderr), NotSet)];
      }
    }
  }
}
