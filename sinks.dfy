/**
 * Logging backends ("sinks") and the record of every call made on them.
 *
 * A sink is the object a decorator forwards to (`console` by default). The model
 * keeps, in one Journal, every sink-method call in the order it was made, so that
 * both what each sink received and the order across sinks can be stated.
 */
module Sinks {
  import opened JsValues

  /** A backend object: its identity and the names of the methods it implements. */
  datatype Sink = Sink(id: nat, methods: set<string>)

  /** The `backend` (or `logger`) option: a single sink, or an array of sinks. */
  datatype Backends = One(sink: Sink) | Many(sinks: seq<Sink>)

  /** `Array.isArray(backend) ? backend : [backend]` */
  function SinkList(b: Backends): (r: seq<Sink>)
    ensures b.One? ==> r == [b.sink]
    ensures b.Many? ==> r == b.sinks
  {
    match b
    case One(s) => [s]
    case Many(ss) => ss
  }

  /** One sink-method call: which sink, which method, which arguments. */
  datatype SinkCall = SinkCall(sink: nat, fn: string, args: seq<Value>)

  /** What a single sink saw of one call: the method name and its arguments. */
  datatype Entry = Entry(fn: string, args: seq<Value>)

  /** Every sink-method call made so far, oldest first. */
  class Journal {
    var calls: seq<SinkCall>

    constructor ()
      ensures calls == []
    {
      calls := [];
    }

    /** `sink[fn].apply(sink, args)`, for a sink that implements fn. */
    method Deliver(sink: Sink, fn: string, args: seq<Value>)
      requires fn in sink.methods
      modifies this
      ensures calls == old(calls) + [SinkCall(sink.id, fn, args)]
    {
      calls := calls + [SinkCall(sink.id, fn, args)];
    }
  }

  /** The calls that forwarding fn(args) to each of sinks makes: one per list entry, in list order. */
  function Deliveries(sinks: seq<Sink>, fn: string, args: seq<Value>): (r: seq<SinkCall>)
    ensures |r| == |sinks|
    ensures forall i :: 0 <= i < |sinks| ==> r[i] == SinkCall(sinks[i].id, fn, args)
  {
    if sinks == [] then [] else [SinkCall(sinks[0].id, fn, args)] + Deliveries(sinks[1..], fn, args)
  }

  /** How many entries of sinks have identity id. */
  function Occurrences(sinks: seq<Sink>, id: nat): (n: nat)
    ensures n <= |sinks|
    ensures n == 0 <==> forall s :: s in sinks ==> s.id != id
  {
    if sinks == [] then 0
    else (if sinks[0].id == id then 1 else 0) + Occurrences(sinks[1..], id)
  }

  /** The identities of the listed sinks, in list order. */
  function Ids(sinks: seq<Sink>): (r: seq<nat>)
    ensures |r| == |sinks|
    ensures forall i :: 0 <= i < |sinks| ==> r[i] == sinks[i].id
  {
    seq(|sinks|, i requires 0 <= i < |sinks| => sinks[i].id)
  }

  /** Occurrences counts the list entries that are the sink id: its multiplicity among the listed identities. */
  lemma {:induction false} OccurrencesCountsEntries(sinks: seq<Sink>, id: nat)
    ensures Occurrences(sinks, id) == multiset(Ids(sinks))[id]
  {
    if sinks != [] {
      assert Ids(sinks) == [sinks[0].id] + Ids(sinks[1..]);
      OccurrencesCountsEntries(sinks[1..], id);
    }
  }

  /** n copies of e. */
  function Repeat(e: Entry, n: nat): (r: seq<Entry>)
    ensures |r| == n
    ensures forall i :: 0 <= i < n ==> r[i] == e
  {
    if n == 0 then [] else [e] + Repeat(e, n - 1)
  }

  /** The calls that the sink with identity id received, in the order it received them. */
  function TraceOf(calls: seq<SinkCall>, id: nat): seq<Entry> {
    if calls == [] then []
    else
      (if calls[0].sink == id then [Entry(calls[0].fn, calls[0].args)] else [])
      + TraceOf(calls[1..], id)
  }

  /** A sink's trace over two stretches of calls is its trace over the first followed by its trace over the second. */
  lemma {:induction false} TraceOfAppend(a: seq<SinkCall>, b: seq<SinkCall>, id: nat)
    ensures TraceOf(a + b, id) == TraceOf(a, id) + TraceOf(b, id)
  {
    if a == [] {
      assert a + b == b;
    } else {
      assert (a + b)[1..] == a[1..] + b;
      TraceOfAppend(a[1..], b, id);
    }
  }

  /**
   * One fan-out gives each sink the forwarded call once per time it appears in the
   * list, and nothing else; a sink that is not in the list receives nothing.
   */
  lemma {:induction false} TraceOfDeliveries(sinks: seq<Sink>, fn: string, args: seq<Value>, id: nat)
    ensures TraceOf(Deliveries(sinks, fn, args), id) == Repeat(Entry(fn, args), Occurrences(sinks, id))
  {
    if sinks != [] {
      var d := Deliveries(sinks, fn, args);
      assert d[1..] == Deliveries(sinks[1..], fn, args);
      TraceOfDeliveries(sinks[1..], fn, args, id);
      if sinks[0].id == id {
        assert Repeat(Entry(fn, args), Occurrences(sinks, id))
            == [Entry(fn, args)] + Repeat(Entry(fn, args), Occurrences(sinks[1..], id));
      }
    }
  }

  /** Extending the sink list by one sink extends the fan-out by one call to it. */
  lemma DeliveriesSnoc(sinks: seq<Sink>, s: Sink, fn: string, args: seq<Value>)
    ensures Deliveries(sinks + [s], fn, args) == Deliveries(sinks, fn, args) + [SinkCall(s.id, fn, args)]
  {
    var l, r := Deliveries(sinks + [s], fn, args), Deliveries(sinks, fn, args) + [SinkCall(s.id, fn, args)];
    assert forall i :: 0 <= i < |l| ==> l[i] == r[i];
  }

  /** `sinks.forEach(s => s[fn].apply(s, logArgs))`: forward logArgs to every sink, in list order. */
  method FanOut(out: Journal, sinks: seq<Sink>, fn: string, logArgs: seq<Value>)
    requires forall s :: s in sinks ==> fn in s.methods
    modifies out
    ensures out.calls == old(out.calls) + Deliveries(sinks, fn, logArgs)
  {
    for i := 0 to |sinks|
      invariant out.calls == old(out.calls) + Deliveries(sinks[..i], fn, logArgs)
    {
      DeliveriesSnoc(sinks[..i], sinks[i], fn, logArgs);
      assert sinks[..i + 1] == sinks[..i] + [sinks[i]];
      out.Deliver(sinks[i], fn, logArgs);
    }
    assert sinks[..|sinks|] == sinks;
  }
}
