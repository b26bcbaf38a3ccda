/**
 * The compiled `addLogger` of lib/addLogger.js. It takes the same options as
 * src/addLogger.js, but builds the logger object through `_defineProperty`,
 * copies `arguments` in an explicit loop, and installs only on
 * `target.prototype`.
 */
module LibAddLogger {
  import opened JsValues
  import opened Sinks
  import opened Targets
  import opened Dispatch
  import AddLogger

  /**
   * The defaults the compiled code applies one option at a time
   * (`_ref$x === undefined ? default : _ref$x`); console is the environment's
   * `console` object.
   */
  function Resolve(name: Option<Name>, options: Option<AddLogger.Options>, console: Sink): (c: AddLogger.Config)
    ensures name.None? ==> c.name == Fixed("logger")
    ensures name.Some? ==> c.name == name.value
    ensures var ref := options.GetOr(AddLogger.Options(None, None, None, None));
      && c.logger == (if ref.logger.Some? then ref.logger.value else One(console))
      && c.functions == (if ref.functions.Some? then ref.functions.value else ["log", "warn", "info", "error", "debug", "trace"])
      && c.accessor == (if ref.accessor.Some? then ref.accessor.value else "logger")
      && (forall s :: c.prefixer(s) == if ref.prefixer.Some? then ref.prefixer.value(s) else "[" + s + "]")
  {
    var ref := if options.Some? then options.value else AddLogger.Options(None, None, None, None);
    AddLogger.Config(
      if name.Some? then name.value else Fixed("logger"),
      if ref.logger.None? then One(console) else ref.logger.value,
      if ref.functions.None? then ["log", "warn", "info", "error", "debug", "trace"] else ref.functions.value,
      if ref.accessor.None? then "logger" else ref.accessor.value,
      if ref.prefixer.None? then (s: string) => "[" + s + "]" else ref.prefixer.value)
  }

  /** The compiled defaults agree, option by option, with those of src/addLogger.js. */
  lemma ResolveAgreesWithSource(name: Option<Name>, options: Option<AddLogger.Options>, console: Sink)
    ensures var c, c' := Resolve(name, options, console), AddLogger.Resolve(name, options, console);
      && c.name == c'.name && c.logger == c'.logger && c.functions == c'.functions && c.accessor == c'.accessor
      && forall s :: c.prefixer(s) == c'.prefixer(s)
  {
  }

  /**
   * `_defineProperty(obj, key, value)`: whether or not obj already has key, the
   * result maps key to value and keeps every other property.
   */
  function DefineProperty(obj: map<string, Value>, key: string, value: Value): (r: map<string, Value>)
    ensures r.Keys == obj.Keys + {key}
    ensures r[key] == value
    ensures forall k :: k in obj && k != key ==> r[k] == obj[k]
  {
    // The `key in obj` branch redefines the property with Object.defineProperty, the other
    // assigns it; property attributes are not modelled, so both give the same map.
    obj[key := value]
  }

  /** The `functions.reduce` that builds the logger object with `Object.assign(result, _defineProperty({}, fn, ...))`. */
  method BuildLoggerObject(functions: seq<string>) returns (result: map<string, Value>)
    ensures result == LoggerMethods(functions)
  {
    result := map[];
    for i := 0 to |functions|
      invariant result == LoggerMethods(functions[..i])
    {
      LoggerMethodsSnoc(functions[..i], functions[i]);
      assert functions[..i + 1] == functions[..i] + [functions[i]];
      var fn := functions[i];
      result := Assign(result, DefineProperty(map[], fn, LogMethod(fn)));
    }
    assert functions[..|functions|] == functions;
  }

  /** The loop that copies `arguments` into a fresh array `args`. */
  method CopyArguments(arguments: seq<Value>) returns (args: array<Value>)
    ensures fresh(args)
    ensures args[..] == arguments
  {
    args := new Value[|arguments|](_ => Opaque(0));
    var key := 0;
    while key < |arguments|
      invariant 0 <= key <= |arguments|
      invariant args[..key] == arguments[..key]
    {
      args[key] := arguments[key];
      key := key + 1;
    }
  }

  /**
   * `decorateClass(target)`: install the logger object on `target.prototype`;
   * a target without a prototype makes the source fail, so it is excluded.
   * It has no return statement, so it yields nothing.
   */
  method DecorateClass(config: AddLogger.Config, target: Target)
    requires target.prototype.Some?
    modifies target
    ensures target.own == old(target.own)
    ensures target.prototype == Some(Installed(old(target.prototype.value), config.accessor, LoggerMethods(config.functions)))
  {
    var result := BuildLoggerObject(config.functions);
    var proto := target.prototype.value;
    if config.accessor == Flatten {
      proto := Assign(proto, result);
    } else {
      proto := proto[config.accessor := LoggerObject(result)];
    }
    target.prototype := Some(proto);
  }

  /**
   * The method installed for fn, called with arguments: copies them, forwards
   * `[prefix].concat(args)` to every sink in list order, and returns true.
   */
  method Invoke(config: AddLogger.Config, fn: string, target: Target, arguments: seq<Value>, out: Journal) returns (r: bool)
    requires fn in config.functions
    requires forall s :: s in SinkList(config.logger) ==> fn in s.methods
    modifies out
    ensures r
    ensures out.calls == old(out.calls) + Broadcast(SinkList(config.logger), config.prefixer, config.name, fn, target, arguments)
  {
    var args := CopyArguments(arguments);
    var prefix := Prefix(config.prefixer, config.name, Context(target, args[..]));
    var logArgs := LogArgs(prefix, args[..]);
    FanOut(out, SinkList(config.logger), fn, logArgs);
    return true;
  }
}
