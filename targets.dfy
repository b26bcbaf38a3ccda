/**
 * The objects and classes a decorator attaches a logger object to, and the
 * installation step shared by the two `src/` versions: write to
 * `target.prototype || target`.
 */
module Targets {
  import opened JsValues

  /** The accessor value that means "merge the methods onto the host" instead of nesting them. */
  const Flatten: string := "this"

  /**
   * An object or a class. `own` holds its own properties; a class also has a
   * `prototype` object, whose properties every instance inherits. A plain object
   * has no (that is, an undefined) `prototype`.
   */
  class Target {
    var own: map<string, Value>
    var prototype: Option<map<string, Value>>

    /** A plain object with the given properties. */
    constructor Plain(props: map<string, Value>)
      ensures own == props && prototype == None
    {
      own := props;
      prototype := None;
    }

    /** A class with the given static properties and prototype properties. */
    constructor Class(statics: map<string, Value>, proto: map<string, Value>)
      ensures own == statics && prototype == Some(proto)
    {
      own := statics;
      prototype := Some(proto);
    }

    /** `target.prototype || target`: the properties an installation writes to. */
    function Host(): (h: map<string, Value>)
      reads this
      ensures prototype.Some? ==> h == prototype.value
      ensures prototype.None? ==> h == own
    {
      if prototype.Some? then prototype.value else own
    }
  }

  /**
   * The host's properties once a logger object has been installed under accessor:
   * either every method merged in (`Object.assign(host, loggerObject)`) or the
   * one property `host[accessor] = loggerObject`.
   */
  function Installed(host: map<string, Value>, accessor: string, loggerObject: map<string, Value>): (r: map<string, Value>)
    ensures accessor == Flatten ==>
      && r.Keys == host.Keys + loggerObject.Keys
      && (forall k :: k in loggerObject ==> r[k] == loggerObject[k])
      && (forall k :: k in host && k !in loggerObject ==> r[k] == host[k])
    ensures accessor != Flatten ==>
      && r.Keys == host.Keys + {accessor}
      && r[accessor] == LoggerObject(loggerObject)
      && (forall k :: k in host && k != accessor ==> r[k] == host[k])
  {
    if accessor == Flatten then Assign(host, loggerObject)
    else host[accessor := LoggerObject(loggerObject)]
  }

  /**
   * Flatten mode puts every logger method directly on the host, overwriting
   * same-named members, and leaves every other property as it was.
   */
  lemma FlattenInstallsEveryMethod(host: map<string, Value>, functions: seq<string>)
    ensures var r := Installed(host, Flatten, LoggerMethods(functions));
      && r.Keys == host.Keys + (set fn | fn in functions)
      && (forall fn :: fn in functions ==> r[fn] == LogMethod(fn))
      && (forall k :: k in host && k !in functions ==> r[k] == host[k])
  {
    var m := LoggerMethods(functions);
    assert m.Keys == set fn | fn in functions;
  }

  /** Installing the same logger object twice leaves the host as one installation does. */
  lemma InstallIdempotent(host: map<string, Value>, accessor: string, loggerObject: map<string, Value>)
    ensures Installed(Installed(host, accessor, loggerObject), accessor, loggerObject)
         == Installed(host, accessor, loggerObject)
  {
  }

  /**
   * The installation of the `src/` versions: write the logger object to the
   * prototype of a class, or to the object itself when it has no prototype.
   */
  method Install(target: Target, accessor: string, loggerObject: map<string, Value>)
    modifies target
    ensures target.prototype.Some? == old(target.prototype).Some?
    ensures target.Host() == Installed(old(target.Host()), accessor, loggerObject)
    ensures old(target.prototype).Some? ==> target.own == old(target.own)
  {
    if target.prototype.Some? {
      var proto := target.prototype.value;
      if accessor == Flatten {
        proto := Assign(proto, loggerObject);
      } else {
        proto := proto[accessor := LoggerObject(loggerObject)];
      }
      target.prototype := Some(proto);
    } else {
      if accessor == Flatten {
        target.own := Assign(target.own, loggerObject);
      } else {
        target.own := target.own[accessor := LoggerObject(loggerObject)];
      }
    }
  }
}
