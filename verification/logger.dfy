/** dooralert/logger.py: one logger per name, configured the first time the
    name is asked for. The module-level list `all_loggers` remembers which
    names have been configured; configuring attaches three handlers (console,
    error file, application file). Where the handlers write, their levels
    and formats are not part of this model: only how many a logger has. */
module Logger {
  import opened Wrappers

  const RootName := "root"

  /** The number of handlers `init_logger` attaches to a logger. */
  const HandlersPerInit := 3

  /** `get_logger_name(name)`: the name itself when it is a non-empty
      string, otherwise the root logger's name. */
  function LoggerName(name: Option<string>): (r: string)
    ensures r != ""
    ensures name.Some? && name.value != "" ==> r == name.value
    ensures name.None? || name.value == "" ==> r == RootName
  {
    if name.Some? && name.value != "" then name.value else RootName
  }

  /** Resolving a resolved name changes nothing. */
  lemma LoggerNameIdempotent(name: Option<string>)
    ensures LoggerName(Some(LoggerName(name))) == LoggerName(name)
  {
  }

  ghost predicate NoDuplicates(s: seq<string>)
  {
    forall i, j :: 0 <= i < j < |s| ==> s[i] != s[j]
  }

  /** The logging state the module keeps: `all_loggers`, and the handlers
      attached to each named logger. */
  class LoggerRegistry {
    /** `all_loggers`: the configured names, in the order first asked for. */
    var allLoggers: seq<string>
    /** How many handlers each logger carries; a name that is absent has none. */
    var handlerCount: map<string, nat>

    /** Every listed logger was configured exactly once, no other logger
        was configured, and no name is listed twice. */
    ghost predicate Valid()
      reads this
    {
      && NoDuplicates(allLoggers)
      && (forall n :: n in handlerCount <==> n in allLoggers)
      && (forall n :: n in handlerCount ==> handlerCount[n] == HandlersPerInit)
    }

    constructor ()
      ensures Valid()
      ensures allLoggers == [] && handlerCount == map[]
    {
      allLoggers := [];
      handlerCount := map[];
    }

    function Handlers(name: string): nat
      reads this
    {
      if name in handlerCount then handlerCount[name] else 0
    }

    /** `init_logger(logger)`: attaches the three handlers, on top of any
        the logger already has. */
    method InitLogger(name: string)
      modifies this
      ensures handlerCount == old(handlerCount)[name := old(Handlers(name)) + HandlersPerInit]
      ensures allLoggers == old(allLoggers)
    {
      handlerCount := handlerCount[name := Handlers(name) + HandlersPerInit];
    }

    /** `get_logger(name)`: resolves the name, configures the logger only
        if the name is not yet listed, then lists it. Returns the resolved
        name, which identifies the logger `logging.getLogger` hands back. */
    method GetLogger(name: Option<string>) returns (loggerName: string)
      requires Valid()
      modifies this
      ensures Valid()
      ensures loggerName == LoggerName(name)
      ensures loggerName in allLoggers
      ensures loggerName in old(allLoggers) ==>
                allLoggers == old(allLoggers) && handlerCount == old(handlerCount)
      ensures loggerName !in old(allLoggers) ==>
                && allLoggers == old(allLoggers) + [loggerName]
                && handlerCount == old(handlerCount)[loggerName := HandlersPerInit]
    {
      loggerName := LoggerName(name);
      if loggerName !in allLoggers {
        InitLogger(loggerName);
        allLoggers := allLoggers + [loggerName];
      }
    }
  }

  /** Asking twice for the same logger configures it once: the second call
      changes nothing. */
  method GetLoggerTwice(r: LoggerRegistry, name: Option<string>) returns (first: string, second: string)
    requires r.Valid()
    modifies r
    ensures r.Valid() && first == second
    ensures r.allLoggers == old(r.allLoggers) + (if first in old(r.allLoggers) then [] else [first])
    ensures r.Handlers(first) == HandlersPerInit
  {
    first := r.GetLogger(name);
    ghost var once := r.allLoggers;
    second := r.GetLogger(name);
    assert r.allLoggers == once;
  }
}
