/**
 * The JavaScript values and built-ins that the three logger decorators rely on:
 * optional arguments, the values a log call forwards or a decorator installs,
 * `Array.prototype.indexOf` and `Object.assign`.
 */
module JsValues {

  /** An optional argument or property: None stands for `undefined`. */
  datatype Option<+T> = None | Some(value: T) {
    /** The JavaScript default-parameter rule: the value if given, the default otherwise. */
    function GetOr(default: T): T {
      match this
      case Some(v) => v
      case None => default
    }
  }

  /** A JavaScript value, as far as the decorators look at it. */
  datatype Value =
    | Str(s: string)                              // a string, such as the computed prefix
    | Opaque(id: nat)                             // any other value handed to a log method
    | LogMethod(fn: string)                       // the function a decorator creates for the method named fn
    | LoggerObject(methods: map<string, Value>)   // the logger object a decorator builds

  /** `xs.indexOf(x)` on an array of strings: the first position of x, or -1 when x is absent. */
  function IndexOf(xs: seq<string>, x: string): (r: int)
    ensures -1 <= r < |xs|
    ensures r == -1 <==> x !in xs
    ensures r >= 0 ==> xs[r] == x && forall j :: 0 <= j < r ==> xs[j] != x
  {
    if xs == [] then -1
    else if xs[0] == x then 0
    else
      var k := IndexOf(xs[1..], x);
      if k == -1 then -1 else k + 1
  }

  /** In an array without repeated names, indexOf finds each name at its own position. */
  lemma IndexOfDistinct(xs: seq<string>, i: nat)
    requires i < |xs|
    requires forall j, k :: 0 <= j < k < |xs| ==> xs[j] != xs[k]
    ensures IndexOf(xs, xs[i]) == i
  {
  }

  /** `Object.assign(target, source)` on property maps: every property of source is copied over target's. */
  function Assign(target: map<string, Value>, source: map<string, Value>): (r: map<string, Value>)
    ensures r.Keys == target.Keys + source.Keys
    ensures forall k :: k in source ==> r[k] == source[k]
    ensures forall k :: k in target && k !in source ==> r[k] == target[k]
  {
    target + source
  }

  /**
   * The properties of a logger object built over `functions`: one method per name
   * in `functions` and no other key.
   */
  function LoggerMethods(functions: seq<string>): (r: map<string, Value>)
    ensures forall fn :: fn in r <==> fn in functions
    ensures forall fn :: fn in r ==> r[fn] == LogMethod(fn)
  {
    map fn | fn in functions :: LogMethod(fn)
  }

  /** Adding one more name to `functions` adds (or re-adds) exactly that method. */
  lemma LoggerMethodsSnoc(functions: seq<string>, fn: string)
    ensures LoggerMethods(functions + [fn]) == LoggerMethods(functions)[fn := LogMethod(fn)]
  {
    var l, r := LoggerMethods(functions + [fn]), LoggerMethods(functions)[fn := LogMethod(fn)];
    assert forall k :: k in functions + [fn] <==> k in functions || k == fn;
    assert l.Keys == r.Keys;
  }
}
