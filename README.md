# addLogger / logger decorator — a Dafny model

The repository holds one small component in three versions: a factory that takes a
name and an options object and returns `decorateClass(target)`. That function builds a
*logger object* with one method per name in `functions` and installs it on the target.
Each installed method computes a prefix from the name, forwards `[prefix, ...args]` to
every sink (the `console`-like backend objects) in list order, and returns `true`.

- `src/logger.js` (module `Logger`) adds a severity gate on `level`, replaces a missing
  target by a fresh empty object (switching the decorator to flatten mode for good), and
  returns the target.
- `src/addLogger.js` (module `AddLogger`) has no gate and returns nothing.
- `lib/addLogger.js` (module `LibAddLogger`) is the compiled form of an older
  `addLogger`. It builds the logger object through `_defineProperty`, copies
  `arguments` in an explicit loop, and installs only on `target.prototype`.

Shared modules:

- `JsValues`: the values a method forwards or a decorator installs, `indexOf`,
  `Object.assign`, and `LoggerMethods`, the logger object as a property map.
- `Sinks`: sinks, the `Journal` that records every sink-method call in order, the
  fan-out loop, and `TraceOf`, which gives what one sink received.
- `Targets`: the `Target` class, with its own properties and an optional prototype, and
  the `prototype || target` installation.
- `Dispatch`: the name, the prefix, `[prefix, ...args]`, and the sink calls of one
  dispatched call.

How the model represents things:

- Sinks are values: an identity plus the set of method names the sink implements.
- Sink output is the `Journal`. Each call of `sink[fn](...logArgs)` appends
  `SinkCall(sink, fn, logArgs)`, so the order across sinks and repeated sinks can both be
  observed.
- A target is a class whose property maps the decorators reassign.
- The name function and the prefixer are opaque Dafny function values.
- The environment's `console` is a parameter of each `Resolve`.

Where the code and its documentation disagree, the model follows the code:

- `logger.js` suppresses a call when the resolved level is 0. So `level: 'log'` drops
  every call, including `log()` itself. The doc comment of `level` (src/logger.js:14)
  says the opposite: that only `log()` is printed. `Logger.LogLevelSilencesLog` states
  the behaviour as written; see "## Findings".
- Under the default level `'debug'` (index 6), `dir` (index 7) is always suppressed.
  The doc comment (src/logger.js:11, 14) places `debug` last, while the default list
  (src/logger.js:29) ends in `'dir'`.
- Each version has its own default `functions` list. The model keeps each version's list.
- `logger()` called without a target returns the fresh object. Its methods are merged
  onto it, so it is both the target and the logger surface.

## Model

| member | source | states |
|---|---|---|
| JsValues.IndexOf | src/logger.js:41-42 | `indexOf` returns -1 exactly when the name is absent; otherwise it returns the first position holding the name |
| JsValues.IndexOfDistinct | src/logger.js:41 | in a `functions` list without repeats, each name's rank is its position |
| JsValues.Assign | src/addLogger.js:45 | `Object.assign` copies every source property over the target's and keeps the others |
| JsValues.LoggerMethods | src/logger.js:39-53 | the logger object has exactly one method key per name in `functions`, and no other key |
| Logger.Resolve | src/logger.js:27-33 | a missing name is `'logger'`; each missing option, or all of them when the options object is missing, takes its default: `console`, the eight-name list, `'logger'`, bracket prefixer, `'debug'`; given options are kept |
| Logger.Decorator.constructor | src/logger.js:27-33 | the decorator closes over the resolved options, and its `accessor` variable starts at the resolved accessor |
| Logger.AllowedLevel | src/logger.js:42 | a numeric level is its own rank; a named level is -1 exactly when the name is not in `functions`, otherwise the first position holding it |
| Logger.Suppressed | src/logger.js:43 | for a name in `functions`, a call passes exactly when the allowed rank is not 0 and the name occurs at or before the allowed rank |
| Logger.IntendedSuppressed | src/logger.js:14 | the documented gate: for a name in `functions`, a call passes exactly when the name occurs at or before the allowed rank, rank 0 included |
| Logger.GatesAgreeAwayFromZero | src/logger.js:43 | the gate as written and the documented gate differ only when the allowed rank is exactly 0 |
| Logger.IntendedLogLevelAdmitsOnlyLog | src/logger.js:14 | under the documented gate, the default `functions` with level `'log'` let exactly `log` through |
| Logger.CallEffect | src/logger.js:43-49 | a suppressed call makes no sink call; any other call makes one call per sink-list entry, in list order, each `fn(prefix, ...args)` |
| Logger.UnknownLevelNameIsMinusOne | src/logger.js:42 | a level name not in `functions` resolves to rank -1 |
| Logger.GateComparesRanks | src/logger.js:41-45 | above rank 0, a method passes exactly when its rank is at most the allowed rank |
| Logger.LowLevelSilencesEverything | src/logger.js:43-45 | an allowed rank of 0 or below (the first name, an unknown name, a non-positive number) suppresses every method |
| Logger.LogLevelSilencesLog | src/logger.js:42-45 | with the default `functions`, level `'log'` resolves to 0 and suppresses every method, `log` included |
| Logger.DefaultLevelDropsOnlyDir | src/logger.js:29-45 | with the default `functions` and level `'debug'`, a method is suppressed exactly when it is `dir` |
| Logger.NamedAndNumericLevelAgree | src/logger.js:41-45 | for `['log','info','warn']`, level `'info'` and level `1` both let `log` and `info` through and suppress `warn` |
| Logger.CallReachesEachSink | src/logger.js:40-50 | a suppressed call reaches no sink; any other call gives each sink `fn(prefix, ...args)` once per time it is listed, and nothing else |
| Logger.BuildLoggerObject | src/logger.js:39-53 | the `reduce` loop that sets `result[fn]` yields exactly one method per name in `functions` |
| Logger.Decorator.DecorateClass | src/logger.js:34-61 | a missing target is replaced by a fresh object that receives every method, and `accessor` becomes `'this'`. Otherwise the given target is returned with its prototype (or, without one, itself) updated as the installation describes, and `accessor` is unchanged |
| Logger.Decorator.Invoke | src/logger.js:40-51 | returns true exactly when the gate passes; the journal grows by the sink calls `CallEffect` gives, which is nothing when suppressed |
| Logger.StandaloneThenClass | src/logger.js:34-60 | a call without a target yields the methods on a standalone object; a later call on a class then flattens onto its prototype and adds no `logger` key |
| Targets.Target.Host | src/logger.js:54 | the host is the prototype when the target has one, otherwise the target's own properties |
| Targets.Installed | src/logger.js:54-59 | accessor `'this'` merges every logger method onto the host, overwriting same-named members and keeping the rest; any other accessor adds that one property, holding the logger object, and keeps the rest |
| Targets.Install | src/logger.js:54-59 | writes to the prototype when there is one, otherwise to the object; the other map is unchanged |
| Targets.FlattenInstallsEveryMethod | src/logger.js:54-56 | flatten mode sets every name of `functions` to its method, overwriting same-named members, and leaves every other property unchanged |
| Targets.InstallIdempotent | src/logger.js:54-59 | installing the same logger object twice leaves the host as one installation does |
| Sinks.Journal.Deliver | src/logger.js:49 | one `sink[fn].apply(sink, args)` call, on a sink that implements `fn`, appends exactly that call to the journal |
| Sinks.Deliveries | src/logger.js:49 | a fan-out makes one call per list entry, in list order, each with the same method and arguments |
| Sinks.SinkList | src/logger.js:48 | a single backend becomes the one-element list holding it; an array is used as it is |
| Sinks.Occurrences | src/logger.js:48-49 | a sink is counted zero times exactly when no entry of the list is that sink |
| Sinks.OccurrencesCountsEntries | src/logger.js:48-49 | the count of a sink is exactly the number of list entries that are that sink |
| Sinks.TraceOfAppend | src/logger.js:49 | what a sink received over two stretches of calls is what it received over the first, then over the second |
| Sinks.TraceOfDeliveries | src/logger.js:49 | one fan-out gives each sink the call once per time it is listed, and a sink not in the list receives nothing |
| Sinks.DeliveriesSnoc | src/logger.js:49 | one more sink at the end of the list adds exactly one call to it at the end |
| Sinks.FanOut | src/logger.js:48-49 | the `forEach` loop appends exactly the fan-out's calls to the journal, in list order |
| Dispatch.Brackets | src/logger.js:31 | the default prefixer is `'['`, the name, `']'` |
| Dispatch.Prefix | src/logger.js:46 | a string name gives `prefixer(name)`; a name function gives `prefixer(name({target, args}))` for the current call |
| Dispatch.FixedNamePrefix | src/logger.js:46 | a string name gives `prefixer(name)` on every call, whatever the target and arguments |
| Dispatch.DefaultPrefix | src/logger.js:31-46 | with the default prefixer, a string name `s` gives the prefix `[s]` (for `Dummy`, `[Dummy]`) |
| Dispatch.LogArgs | src/logger.js:47 | the forwarded arguments are the prefix followed by the call's arguments, unchanged |
| Dispatch.Broadcast | src/logger.js:46-49 | one call per sink-list entry, in list order, each with the method and the prefixed arguments |
| Dispatch.BroadcastReachesEachSink | src/logger.js:46-49 | a dispatched call sends `fn(prefix, ...args)` to each list entry in order; each sink receives it once per time it is listed |
| Dispatch.SingleBackendIsOneElementList | src/logger.js:48 | a non-array backend behaves as the one-element list holding it, and receives exactly one call |
| AddLogger.Resolve | src/addLogger.js:26-31 | a missing name is `'logger'`; each missing option, or all of them when the options object is missing, takes its default: `console`, the six-name list, `'logger'`, bracket prefixer; given options are kept |
| AddLogger.BuildLoggerObject | src/addLogger.js:33-43 | the `reduce` loop of `Object.assign` steps yields exactly one method per name in `functions` |
| AddLogger.DecorateClass | src/addLogger.js:32-50 | the logger object is installed on the prototype, or on the target itself when it has none; nothing is returned |
| AddLogger.Invoke | src/addLogger.js:35-41 | every call is dispatched with no gate, sends `fn(prefix, ...args)` to every sink in list order, and returns true |
| AddLogger.AddsLoggerToPlainObject | test/addLogger.test.js:7-12 | with the default options, a plain object gains exactly the property `logger`, holding the six default methods |
| AddLogger.AddsLoggerToClassPrototype | test/addLogger.test.js:14-19 | with the default options, a class's prototype gains `logger` and the class's own properties are untouched |
| LibAddLogger.Resolve | lib/addLogger.js:36-48 | each missing argument falls back to its default: `'logger'`, `console`, the six-name list, `'logger'`, `'[' + name + ']'` |
| LibAddLogger.ResolveAgreesWithSource | lib/addLogger.js:36-48 | the compiled defaults agree, option by option, with those of src/addLogger.js |
| LibAddLogger.DefineProperty | lib/addLogger.js:8 | `_defineProperty` leaves `obj[key] == value` whether or not the key was present, and keeps every other key |
| LibAddLogger.BuildLoggerObject | lib/addLogger.js:51-65 | the `reduce` loop over `_defineProperty` and `Object.assign` yields one method per distinct name in `functions`, and no other key |
| LibAddLogger.CopyArguments | lib/addLogger.js:53-55 | the `for` loop copies `arguments` into a fresh array element by element |
| LibAddLogger.DecorateClass | lib/addLogger.js:50-71 | the logger object is installed on `target.prototype` only; the target's own properties are unchanged; nothing is returned |
| LibAddLogger.Invoke | lib/addLogger.js:52-64 | every call is dispatched with no gate, sends `[prefix].concat(args)` to every sink in list order, and returns true |

## Left out

- The real `console` and actual text output: sinks only record calls in the journal, and the default backend is a parameter.
- Sink methods that are missing, and sink exceptions: every `Invoke` requires that each listed sink implements `fn`. A throwing sink, which would stop delivery to the sinks after it, is not modelled.
- JavaScript prototype-chain lookup by instances, decorator syntax (`@logger`), `.bind(result)`, and sharing of one prototype object between targets. A prototype is a plain property map owned by its target.
- Property order and property attributes (enumerable, configurable, writable) of JavaScript objects. Property maps are unordered, so the key order of the logger object is not modelled.
- The closures themselves. An installed method is the value `LogMethod(fn)`. What calling it does is `Invoke`, given the target that `decorateClass` installed it on. Closures created for a repeated name behave alike, so "the later entry wins" cannot be told apart from "the first entry wins".
- Non-integer numeric levels (NaN, fractions): `level` is a name or an integer rank.
- Names that are neither strings nor functions: the name is a string or a function of `{target, args}` returning a string.
- `AddLogger.DecorateClass`: a missing target makes `target.prototype` throw in src/addLogger.js; the model takes a non-null target.
- `LibAddLogger.DecorateClass`: a target without a prototype makes the compiled code throw; the model requires a prototype.
- `Targets.Install`, `Logger.Decorator.DecorateClass`, `AddLogger.DecorateClass`, `LibAddLogger.DecorateClass`: the prototype is a separate field, not a property. An own property named `prototype`, including one written through accessor `'prototype'`, is not then followed as the host. A `__proto__` key is an ordinary key.
- `Logger.Decorator.Invoke`: returns false for a suppressed call, where src/logger.js:45 returns `undefined`; both are falsy.
- Name functions and prefixers are pure Dafny functions. They cannot mutate `args` or the target, and they see the target as a reference, not its current properties.
- `Logger.Resolve`, `AddLogger.Resolve`, `LibAddLogger.Resolve`: the resolved `functions` and backend list are values fixed when the decorator is made. The source keeps the arrays themselves and re-reads them on every call, so later mutation of those arrays is not modelled.
- Module and ES-export wiring (lib/addLogger.js:3-6) and the `tape` test harness.

## Findings

| source | as written | input that shows it | evidently intended | confidence | as-written member | corrected member |
|---|---|---|---|---|---|---|
| src/logger.js:43 | `!allowedLevel` also suppresses when the allowed rank is 0, the first name | `level: 'log'` with the default `functions`, then `logger.log('x')`: nothing is printed | the documented behaviour: with level `'log'`, only `log()` is printed (src/logger.js:14) | not executed | Logger.LogLevelSilencesLog | Logger.IntendedLogLevelAdmitsOnlyLog |
