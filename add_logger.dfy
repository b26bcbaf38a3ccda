/**
 * `addLogger(name, options)` of src/addLogger.js: no severity gate, the sinks
 * come from the `logger` option, and the decorator returns nothing.
 */
module AddLogger {
  import opened JsValues
  import opened Sinks
  import opened Targets
  import opened Dispatch

  /** The options object; each None field is a missing (undefined) option. */
  datatype Options = Options(
    logger: Option<Backends>,
    functions: Option<seq<string>>,
    accessor: Option<string>,
    prefixer: Option<string -> string>)

  /** The options with every default applied. */
  datatype Config = Config(
    name: Name,
    logger: Backends,
    functions: seq<string>,
    accessor: string,
    prefixer: string -> string)

  const DefaultFunctions: seq<string> := ["log", "warn", "info", "error", "debug", "trace"]

  /**
   * The defaults of `addLogger(name = 'logger', {...} = {})`; console is the
   * environment's `console` object.
   */
  function Resolve(name: Option<Name>, options: Option<Options>, console: Sink): (c: Config)
    ensures name.None? ==> c.name == Fixed("logger")
    ensures name.Some? ==> c.name == name.value
    ensures var o := options.GetOr(Options(None, None, None, None));
      && c.logger == (if o.logger.Some? then o.logger.value else One(console))
      && c.functions == (if o.functions.Some? then o.functions.value else DefaultFunctions)
      && c.accessor == (if o.accessor.Some? then o.accessor.value else "logger")
      && (forall s :: c.prefixer(s) == if o.prefixer.Some? then o.prefixer.value(s) else Brackets(s))
  {
    var o := options.GetOr(Options(None, None, None, None));
    Config(
      name.GetOr(Fixed("logger")),
      o.logger.GetOr(One(console)),
      o.functions.GetOr(DefaultFunctions),
      o.accessor.GetOr("logger"),
      o.prefixer.GetOr(Brackets))
  }

  /** The `functions.reduce` that builds the logger object with `Object.assign(result, {[fn]: ...})`. */
  method BuildLoggerObject(functions: seq<string>) returns (result: map<string, Value>)
    ensures result == LoggerMethods(functions)
  {
    result := map[];
    for i := 0 to |functions|
      invariant result == LoggerMethods(functions[..i])
    {
      LoggerMethodsSnoc(functions[..i], functions[i]);
      assert functions[..i + 1] == functions[..i] + [functions[i]];
      result := Assign(result, map[functions[i] := LogMethod(functions[i])]);
    }
    assert functions[..|functions|] == functions;
  }

  /**
   * `decorateClass(target)`: install the logger object on `target.prototype || target`.
   * It has no return statement, so it yields nothing.
   */
  method DecorateClass(config: Config, target: Target)
    modifies target
    ensures target.prototype.Some? == old(target.prototype).Some?
    ensures target.Host() == Installed(old(target.Host()), config.accessor, LoggerMethods(config.functions))
    ensures old(target.prototype).Some? ==> target.own == old(target.own)
  {
    var loggerObject := BuildLoggerObject(config.functions);
    Install(target, config.accessor, loggerObject);
  }

  /**
   * The method installed for fn, called with args: always forwards
   * `[prefix, ...args]` to every sink in list order, and returns true.
   */
  method Invoke(config: Config, fn: string, target: Target, args: seq<Value>, out: Journal) returns (r: bool)
    requires fn in config.functions
    requires forall s :: s in SinkList(config.logger) ==> fn in s.methods
    modifies out
    ensures r
    ensures out.calls == old(out.calls) + Broadcast(SinkList(config.logger), config.prefixer, config.name, fn, target, args)
  {
    var prefix := Prefix(config.prefixer, config.name, Context(target, args));
    var logArgs := LogArgs(prefix, args);
    FanOut(out, SinkList(config.logger), fn, logArgs);
    return true;
  }

  /** `addLogger()(obj)` on a plain object `{}` gives it a `logger` property holding the default methods. */
  method AddsLoggerToPlainObject(console: Sink) returns (obj: Target)
    ensures obj.prototype == None
    ensures obj.own.Keys == {"logger"}
    ensures obj.own["logger"] == LoggerObject(LoggerMethods(DefaultFunctions))
  {
    obj := new Target.Plain(map[]);
    DecorateClass(Resolve(None, None, console), obj);
  }

  /** `addLogger()(Dummy)` on a class gives `Dummy.prototype` a `logger` property and leaves `Dummy` itself alone. */
  method AddsLoggerToClassPrototype(console: Sink) returns (dummy: Target)
    ensures dummy.own == map[]
    ensures dummy.prototype.Some? && dummy.prototype.value.Keys == {"logger"}
    ensures dummy.prototype.value["logger"] == LoggerObject(LoggerMethods(DefaultFunctions))
  {
    dummy := new Target.Class(map[], map[]);
    DecorateClass(Resolve(None, None, console), dummy);
  }
}
