/**
 * `logger(name, options)` of src/logger.js: the version with a severity gate, a
 * fallback for a missing target, and a decorator that returns its target.
 */
module Logger {
  import opened JsValues
  import opened Sinks
  import opened Targets
  import opened Dispatch

  /** The `level` option: the name of one of `functions`, or a numeric rank. */
  datatype Level = Named(name: string) | Rank(n: int)

  /** The options object; each None field is a missing (undefined) option. */
  datatype Options = Options(
    backend: Option<Backends>,
    functions: Option<seq<string>>,
    accessor: Option<string>,
    prefixer: Option<string -> string>,
    level: Option<Level>)

  /** The options with every default applied. */
  datatype Config = Config(
    name: Name,
    backend: Backends,
    functions: seq<string>,
    accessor: string,
    prefixer: string -> string,
    level: Level)

  const DefaultFunctions: seq<string> := ["log", "info", "warn", "error", "trace", "table", "debug", "dir"]
  const DefaultLevel: Level := Named("debug")

  /**
   * The defaults of `logger(name = 'logger', {...} = {})`; console is the
   * environment's `console` object.
   */
  function Resolve(name: Option<Name>, options: Option<Options>, console: Sink): (c: Config)
    ensures name.None? ==> c.name == Fixed("logger")
    ensures name.Some? ==> c.name == name.value
    ensures var o := options.GetOr(Options(None, None, None, None, None));
      && c.backend == (if o.backend.Some? then o.backend.value else One(console))
      && c.functions == (if o.functions.Some? then o.functions.value else DefaultFunctions)
      && c.accessor == (if o.accessor.Some? then o.accessor.value else "logger")
      && (forall s :: c.prefixer(s) == if o.prefixer.Some? then o.prefixer.value(s) else Brackets(s))
      && c.level == (if o.level.Some? then o.level.value else DefaultLevel)
  {
    var o := options.GetOr(Options(None, None, None, None, None));
    Config(
      name.GetOr(Fixed("logger")),
      o.backend.GetOr(One(console)),
      o.functions.GetOr(DefaultFunctions),
      o.accessor.GetOr("logger"),
      o.prefixer.GetOr(Brackets),
      o.level.GetOr(DefaultLevel))
  }

  /** `typeof level === 'number' ? level : functions.indexOf(level)` */
  function AllowedLevel(functions: seq<string>, level: Level): (r: int)
    ensures level.Rank? ==> r == level.n
    ensures level.Named? ==> -1 <= r < |functions|
    ensures level.Named? ==> (r == -1 <==> level.name !in functions)
    ensures level.Named? && r >= 0 ==> functions[r] == level.name && forall j :: 0 <= j < r ==> functions[j] != level.name
  {
    match level
    case Rank(n) => n
    case Named(l) => IndexOf(functions, l)
  }

  /** `!allowedLevel || fnLevel > allowedLevel`: whether a call of fn is dropped. */
  predicate Suppressed(functions: seq<string>, fn: string, level: Level): (b: bool)
    ensures fn in functions ==>
      (!b <==> AllowedLevel(functions, level) != 0
               && exists j :: 0 <= j < |functions| && j <= AllowedLevel(functions, level) && functions[j] == fn)
  {
    var allowed := AllowedLevel(functions, level);
    allowed == 0 || IndexOf(functions, fn) > allowed
  }

  /** A level name that is not among `functions` resolves to rank -1. */
  lemma UnknownLevelNameIsMinusOne(functions: seq<string>, l: string)
    requires l !in functions
    ensures AllowedLevel(functions, Named(l)) == -1
  {
  }

  /**
   * Above rank 0, a method passes exactly when its rank (the first position of
   * its name) is at most the allowed rank.
   */
  lemma GateComparesRanks(functions: seq<string>, fn: string, level: Level)
    requires fn in functions
    requires AllowedLevel(functions, level) > 0
    ensures !Suppressed(functions, fn, level) <==> IndexOf(functions, fn) <= AllowedLevel(functions, level)
    ensures !Suppressed(functions, fn, level) ==> 0 <= IndexOf(functions, fn) && functions[IndexOf(functions, fn)] == fn
  {
  }

  /**
   * A level that resolves to 0 (the first name, e.g. 'log') or to a negative rank
   * (e.g. an unknown name) drops every method, including the lowest one.
   */
  lemma LowLevelSilencesEverything(functions: seq<string>, fn: string, level: Level)
    requires fn in functions
    requires AllowedLevel(functions, level) <= 0
    ensures Suppressed(functions, fn, level)
  {
  }

  /**
   * With the default `functions`, the level 'log' drops even `log()` itself,
   * unlike what the documentation of `level` describes.
   */
  lemma LogLevelSilencesLog()
    ensures AllowedLevel(DefaultFunctions, Named("log")) == 0
    ensures forall fn :: fn in DefaultFunctions ==> Suppressed(DefaultFunctions, fn, Named("log"))
  {
    assert DefaultFunctions[0] == "log";
  }

  /** With the default `functions` and level 'debug', every method passes except `dir`. */
  lemma DefaultLevelDropsOnlyDir()
    ensures forall fn :: fn in DefaultFunctions ==> (Suppressed(DefaultFunctions, fn, DefaultLevel) <==> fn == "dir")
  {
    var fs := DefaultFunctions;
    assert forall j, k :: 0 <= j < k < |fs| ==> fs[j] != fs[k];
    IndexOfDistinct(fs, 6);
    forall fn | fn in fs
      ensures Suppressed(fs, fn, DefaultLevel) <==> fn == "dir"
    {
      var i :| 0 <= i < |fs| && fs[i] == fn;
      IndexOfDistinct(fs, i);
    }
  }

  /**
   * Functions ['log', 'info', 'warn'] with level 'info', or equally the numeric
   * level 1: `log` and `info` pass, `warn` is dropped.
   */
  lemma NamedAndNumericLevelAgree()
    ensures var fs := ["log", "info", "warn"];
      && !Suppressed(fs, "log", Named("info")) && !Suppressed(fs, "info", Named("info"))
      && Suppressed(fs, "warn", Named("info"))
      && !Suppressed(fs, "log", Rank(1)) && !Suppressed(fs, "info", Rank(1))
      && Suppressed(fs, "warn", Rank(1))
  {
    var fs := ["log", "info", "warn"];
    assert IndexOf(fs, "info") == 1 by { assert fs[0] != "info"; }
    assert IndexOf(fs, "warn") == 2 by { assert fs[..2] == ["log", "info"]; }
  }

  /**
   * The gate the documentation of `level` describes: a method passes exactly when
   * its rank is at most the allowed rank, with no special case for rank 0.
   */
  predicate IntendedSuppressed(functions: seq<string>, fn: string, level: Level): (b: bool)
    ensures fn in functions ==>
      (!b <==> exists j :: 0 <= j < |functions| && j <= AllowedLevel(functions, level) && functions[j] == fn)
  {
    IndexOf(functions, fn) > AllowedLevel(functions, level)
  }

  /** The two gates differ only when the allowed rank is exactly 0. */
  lemma GatesAgreeAwayFromZero(functions: seq<string>, fn: string, level: Level)
    requires AllowedLevel(functions, level) != 0
    ensures Suppressed(functions, fn, level) <==> IntendedSuppressed(functions, fn, level)
  {
  }

  /** Under the intended gate, the default `functions` with level 'log' let exactly `log` through. */
  lemma IntendedLogLevelAdmitsOnlyLog()
    ensures forall fn :: fn in DefaultFunctions ==> (!IntendedSuppressed(DefaultFunctions, fn, Named("log")) <==> fn == "log")
  {
    var fs := DefaultFunctions;
    assert forall j, k :: 0 <= j < k < |fs| ==> fs[j] != fs[k];
    IndexOfDistinct(fs, 0);
    forall fn | fn in fs
      ensures !IntendedSuppressed(fs, fn, Named("log")) <==> fn == "log"
    {
      var i :| 0 <= i < |fs| && fs[i] == fn;
      IndexOfDistinct(fs, i);
    }
  }

  /** The sink calls that calling the installed method fn with args makes. */
  function CallEffect(config: Config, fn: string, target: Target, args: seq<Value>): (r: seq<SinkCall>)
    ensures Suppressed(config.functions, fn, config.level) ==> r == []
    ensures !Suppressed(config.functions, fn, config.level) ==>
      var sinks := SinkList(config.backend);
      && |r| == |sinks|
      && forall i :: 0 <= i < |sinks| ==>
           r[i] == SinkCall(sinks[i].id, fn, [Str(Prefix(config.prefixer, config.name, Context(target, args)))] + args)
  {
    if Suppressed(config.functions, fn, config.level) then []
    else Broadcast(SinkList(config.backend), config.prefixer, config.name, fn, target, args)
  }

  /**
   * A dropped call reaches no sink; any other call gives each sink
   * `fn(prefix, ...args)` once per time the sink is listed, and nothing else.
   */
  lemma {:induction false} CallReachesEachSink(config: Config, fn: string, target: Target, args: seq<Value>, id: nat)
    ensures var prefix := Prefix(config.prefixer, config.name, Context(target, args));
      TraceOf(CallEffect(config, fn, target, args), id)
        == if Suppressed(config.functions, fn, config.level) then []
           else Repeat(Entry(fn, [Str(prefix)] + args), Occurrences(SinkList(config.backend), id))
  {
    if !Suppressed(config.functions, fn, config.level) {
      BroadcastReachesEachSink(SinkList(config.backend), config.prefixer, config.name, fn, target, args, id);
    }
  }

  /** The `functions.reduce` that builds the logger object, one `result[fn] = ...` at a time. */
  method BuildLoggerObject(functions: seq<string>) returns (result: map<string, Value>)
    ensures result == LoggerMethods(functions)
  {
    result := map[];
    for i := 0 to |functions|
      invariant result == LoggerMethods(functions[..i])
    {
      LoggerMethodsSnoc(functions[..i], functions[i]);
      assert functions[..i + 1] == functions[..i] + [functions[i]];
      result := result[functions[i] := LogMethod(functions[i])];
    }
    assert functions[..|functions|] == functions;
  }

  /** The decorator `logger(name, options)` returns: `decorateClass` and the variables it closes over. */
  class Decorator {
    const config: Config
    /** The closure variable `accessor`; a call without a target sets it to 'this' for good. */
    var accessor: string

    /** `logger(name, options)` */
    constructor (name: Option<Name>, options: Option<Options>, console: Sink)
      ensures config == Resolve(name, options, console)
      ensures accessor == config.accessor
    {
      var c := Resolve(name, options, console);
      config := c;
      accessor := c.accessor;
    }

    /**
     * `decorateClass(target)`: a missing target is replaced by a fresh empty object
     * and switches the decorator to flatten mode; the logger object is then
     * installed on `target.prototype || target`, and the target is returned.
     */
    method DecorateClass(target: Target?) returns (t: Target)
      modifies this, target
      ensures target == null ==>
        && fresh(t) && accessor == Flatten
        && t.prototype == None && t.own == LoggerMethods(config.functions)
      ensures target != null ==>
        && t == target && accessor == old(accessor)
        && t.prototype.Some? == old(target.prototype).Some?
        && t.Host() == Installed(old(target.Host()), accessor, LoggerMethods(config.functions))
        && (old(target.prototype).Some? ==> t.own == old(target.own))
    {
      if target == null {
        t := new Target.Plain(map[]);
        accessor := Flatten;
      } else {
        t := target;
      }
      var loggerObject := BuildLoggerObject(config.functions);
      Install(t, accessor, loggerObject);
    }

    /**
     * The method installed for fn, called with args: dropped by the level gate
     * (the source returns undefined, here false), or forwarded as
     * `[prefix, ...args]` to every sink in list order (returns true).
     */
    method Invoke(fn: string, target: Target, args: seq<Value>, out: Journal) returns (r: bool)
      requires fn in config.functions
      requires forall s :: s in SinkList(config.backend) ==> fn in s.methods
      modifies out
      ensures r <==> !Suppressed(config.functions, fn, config.level)
      ensures out.calls == old(out.calls) + CallEffect(config, fn, target, args)
    {
      var fnLevel := IndexOf(config.functions, fn);
      var allowedLevel := AllowedLevel(config.functions, config.level);
      if allowedLevel == 0 || fnLevel > allowedLevel {
        return false;
      }
      var prefix := Prefix(config.prefixer, config.name, Context(target, args));
      var logArgs := LogArgs(prefix, args);
      FanOut(out, SinkList(config.backend), fn, logArgs);
      return true;
    }
  }

  /**
   * Decorating nothing yields a standalone logger whose methods sit directly on
   * it; a later call of the same decorator then also flattens, here onto a
   * class's prototype, instead of adding the `logger` property.
   */
  method StandaloneThenClass(console: Sink) returns (standalone: Target, cls: Target)
    ensures standalone.own == LoggerMethods(DefaultFunctions)
    ensures cls.prototype.Some? && "logger" !in cls.prototype.value
    ensures forall fn :: fn in DefaultFunctions ==> fn in cls.prototype.value && cls.prototype.value[fn] == LogMethod(fn)
  {
    var d := new Decorator(None, None, console);
    standalone := d.DecorateClass(null);
    var c := new Target.Class(map[], map[]);
    cls := d.DecorateClass(c);
    FlattenInstallsEveryMethod(map[], DefaultFunctions);
  }
}
