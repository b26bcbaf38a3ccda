/**
 * What every version of a logger method does once it has decided to log:
 * compute the prefix from the name, put it in front of the arguments, and
 * forward the result to every sink.
 */
module Dispatch {
  import opened JsValues
  import opened Sinks
  import opened Targets

  /** The bundle a name function receives on every call: `{target, args}`. */
  datatype Context = Context(target: Target, args: seq<Value>)

  /** The `name` argument: a fixed string, or a function of the call's context. */
  datatype Name = Fixed(s: string) | Derived(f: Context -> string)

  /** The default prefixer: the name in square brackets. */
  function Brackets(name: string): (r: string)
    ensures |r| == |name| + 2
    ensures r[0] == '[' && r[|r| - 1] == ']'
    ensures r[1..|r| - 1] == name
  {
    "[" + name + "]"
  }

  /** `prefixer(typeof name === 'function' ? name({target, args}) : name)`, evaluated on each call. */
  function Prefix(prefixer: string -> string, name: Name, ctx: Context): (p: string)
    ensures name.Fixed? ==> p == prefixer(name.s)
    ensures name.Derived? ==> p == prefixer(name.f(ctx))
  {
    match name
    case Fixed(s) => prefixer(s)
    case Derived(f) => prefixer(f(ctx))
  }

  /** A fixed name yields the same prefix on every call, whatever the target and the arguments. */
  lemma FixedNamePrefix(prefixer: string -> string, s: string, ctx: Context, ctx': Context)
    ensures Prefix(prefixer, Fixed(s), ctx) == Prefix(prefixer, Fixed(s), ctx') == prefixer(s)
  {
  }

  /** With the default prefixer, a fixed name is shown in square brackets, e.g. `[Dummy]`. */
  lemma DefaultPrefix(s: string, ctx: Context)
    ensures Prefix(Brackets, Fixed(s), ctx) == "[" + s + "]"
  {
  }

  /** `[prefix, ...args]`: the prefix followed by the call's own arguments. */
  function LogArgs(prefix: string, args: seq<Value>): (r: seq<Value>)
    ensures |r| == |args| + 1
    ensures r[0] == Str(prefix) && r[1..] == args
  {
    [Str(prefix)] + args
  }

  /** The sink calls that one dispatched call of the method fn with args makes. */
  function Broadcast(sinks: seq<Sink>, prefixer: string -> string, name: Name, fn: string,
                     target: Target, args: seq<Value>): (r: seq<SinkCall>)
    ensures |r| == |sinks|
    ensures forall i :: 0 <= i < |sinks| ==>
      r[i] == SinkCall(sinks[i].id, fn, [Str(Prefix(prefixer, name, Context(target, args)))] + args)
  {
    Deliveries(sinks, fn, LogArgs(Prefix(prefixer, name, Context(target, args)), args))
  }

  /**
   * A dispatched call makes one call per sink-list entry, in list order, each with
   * the method fn and the prefixed arguments; each sink therefore receives it once
   * per time it is listed, and a sink that is not listed receives nothing.
   */
  lemma {:induction false} BroadcastReachesEachSink(sinks: seq<Sink>, prefixer: string -> string, name: Name,
                                                    fn: string, target: Target, args: seq<Value>, id: nat)
    ensures var b := Broadcast(sinks, prefixer, name, fn, target, args);
            var logArgs := [Str(Prefix(prefixer, name, Context(target, args)))] + args;
      && |b| == |sinks|
      && (forall i :: 0 <= i < |sinks| ==> b[i] == SinkCall(sinks[i].id, fn, logArgs))
      && TraceOf(b, id) == Repeat(Entry(fn, logArgs), Occurrences(sinks, id))
  {
    var p := Prefix(prefixer, name, Context(target, args));
    TraceOfDeliveries(sinks, fn, LogArgs(p, args), id);
  }

  /** A single (non-array) backend behaves as the one-element list holding it. */
  lemma SingleBackendIsOneElementList(s: Sink, prefixer: string -> string, name: Name,
                                      fn: string, target: Target, args: seq<Value>)
    ensures Broadcast(SinkList(One(s)), prefixer, name, fn, target, args)
         == Broadcast(SinkList(Many([s])), prefixer, name, fn, target, args)
    ensures |Broadcast(SinkList(One(s)), prefixer, name, fn, target, args)| == 1
  {
  }
}
