/** Population and projection directives, shared by both router factories:
    how setPopulate's arguments become (field, options) pairs, and how the
    directives shape every read query. */
module Directives {
  import opened Values

  /** One population directive: the path to expand and the options of the
      sub-query (both as JavaScript values; an empty object argument gives
      an undefined path and undefined options). */
  datatype Entry = Entry(path: Json, options: Json)

  /** What setPopulate does with one argument. */
  datatype Normalized = Push(entry: Entry) | Skip | Throw

  /** The `switch (typeof arg)` of setPopulate: a string `s` becomes
      `[s, {}]`; an object (an array is one too, and so is null) becomes
      `[first key, value at that key]`, where `Object.keys(null)` throws a
      TypeError; every other type adds nothing. */
  function Normalize(arg: Json): (n: Normalized)
    ensures arg.JStr? <==> n == Push(Entry(arg, JObj([])))
    ensures n.Throw? <==> arg == JNull
    ensures n.Skip? <==> arg.JUndefined? || arg.JBool? || arg.JNum?
    ensures arg.JObj? && |arg.entries| > 0 ==>
              n == Push(Entry(JStr(arg.entries[0].0), arg.entries[0].1))
    ensures arg.JObj? && |arg.entries| > 0 && DistinctKeys(arg.entries) ==>
              forall i :: 0 <= i < |arg.entries| && arg.entries[i].0 == arg.entries[0].0 ==>
                n.entry.options == arg.entries[i].1
    ensures arg.JArr? && |arg.items| > 0 ==> n == Push(Entry(JStr("0"), arg.items[0]))
    ensures arg == JObj([]) || arg == JArr([]) ==> n == Push(Entry(JUndefined, JUndefined))
  {
    match arg
    case JStr(s) => Push(Entry(JStr(s), JObj([])))
    case JObj(kvs) =>
      if |kvs| == 0 then Push(Entry(JUndefined, JUndefined))
      else Push(Entry(JStr(kvs[0].0), kvs[0].1))
    case JArr(items) =>
      if |items| == 0 then Push(Entry(JUndefined, JUndefined))
      else Push(Entry(JStr("0"), items[0]))
    case JNull => Throw
    case _ => Skip
  }

  /** The entries one setPopulate call pushes, and whether it stopped by
      throwing (the entries pushed before the throw stay). */
  datatype Populating = Populating(entries: seq<Entry>, thrown: bool)

  function Populated(args: seq<Json>): (r: Populating)
    ensures r.thrown <==> JNull in args
    ensures |r.entries| <= |args|
  {
    if args == [] then Populating([], false)
    else
      match Normalize(args[0])
      case Throw => Populating([], true)
      case Skip => Populated(args[1..])
      case Push(e) =>
        var rest := Populated(args[1..]);
        Populating([e] + rest.entries, rest.thrown)
  }

  /** The arguments that push an entry, in argument order: strings and
      objects (arrays included) up to the first null. */
  function Pushing(args: seq<Json>): seq<Json> {
    if args == [] || args[0] == JNull then []
    else if Normalize(args[0]).Push? then [args[0]] + Pushing(args[1..])
    else Pushing(args[1..])
  }

  /** Two setPopulate calls in a row push what one call with both argument
      lists pushes, unless the first one threw. */
  lemma {:induction false} PopulatedAppend(a: seq<Json>, b: seq<Json>)
    ensures Populated(a + b) ==
              if Populated(a).thrown then Populated(a)
              else Populating(Populated(a).entries + Populated(b).entries, Populated(b).thrown)
  {
    if a == [] {
      assert a + b == b;
    } else {
      assert (a + b)[0] == a[0];
      assert (a + b)[1..] == a[1..] + b;
      PopulatedAppend(a[1..], b);
    }
  }

  /** setPopulate pushes exactly one entry per string or object argument,
      in argument order, and each is that argument's normal form. */
  lemma {:induction false} PopulatedOnePerArgument(args: seq<Json>)
    ensures |Populated(args).entries| == |Pushing(args)|
    ensures forall i :: 0 <= i < |Pushing(args)| ==>
              Normalize(Pushing(args)[i]) == Push(Populated(args).entries[i])
  {
    if args != [] && args[0] != JNull {
      PopulatedOnePerArgument(args[1..]);
    }
  }

  /** A call made of strings only pushes `[s, {}]` for each of them. */
  lemma {:induction false} PopulatedStrings(args: seq<Json>)
    requires forall i :: 0 <= i < |args| ==> args[i].JStr?
    ensures !Populated(args).thrown
    ensures |Populated(args).entries| == |args|
    ensures forall i :: 0 <= i < |args| ==>
              Populated(args).entries[i] == Entry(args[i], JObj([]))
  {
    if args != [] {
      PopulatedStrings(args[1..]);
    }
  }

  /** A read query as handleGET builds it: `find({})` or `find({_id: id})`,
      one populate per directive, and a select when the projection is set. */
  datatype Query = Query(byId: Option<Json>, populate: seq<Entry>, select: Option<Json>)

  function ReadQuery(id: Json, toPopulate: seq<Entry>, projection: Json): (q: Query)
    ensures q.byId == (if Truthy(id) then Some(id) else None)
    ensures q.populate == toPopulate
    ensures q.select.Some? <==> Truthy(projection)
    ensures q.select.Some? ==> q.select.value == projection
  {
    Query(if Truthy(id) then Some(id) else None,
          toPopulate,
          if Truthy(projection) then Some(projection) else None)
  }
}
