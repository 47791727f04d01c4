/** The argument-count dispatch of the static `search(query, fields, options, callback)`. */
module Arguments {

  /** A JavaScript argument value, with objects of type `O`. */
  datatype JsValue<O> =
    | Undefined
    | Null
    | Primitive(truthy: bool)   // a boolean, number or string, with its truthiness
    | Function(fid: nat)
    | Object(obj: O)

  predicate Truthy<O>(v: JsValue<O>) {
    match v
    case Undefined => false
    case Null => false
    case Primitive(t) => t
    case Function(_) => true
    case Object(_) => true
  }

  /** The options `search` goes on with: an argument it was given, or a new `{}`. */
  datatype OptionsArg<O> = Passed(value: JsValue<O>) | EmptyLiteral

  /** The four parameters after dispatch. */
  datatype SearchCall<O> = SearchCall(query: JsValue<O>, fields: JsValue<O>, options: OptionsArg<O>, callback: JsValue<O>)

  /** The i-th argument; a missing one is `undefined`. */
  function Arg<O>(args: seq<JsValue<O>>, i: nat): JsValue<O> {
    if i < |args| then args[i] else Undefined
  }

  /**
   * With two arguments the second is the callback, with three the third; in
   * both the options are a new empty object. Otherwise the fourth is the
   * callback and falsy options are replaced by a new empty object. The
   * `fields` parameter is never reassigned.
   */
  function Dispatch<O>(args: seq<JsValue<O>>): (c: SearchCall<O>)
    ensures c.query == Arg(args, 0) && c.fields == Arg(args, 1)
    ensures |args| == 2 ==> c.callback == args[1] && c.options == EmptyLiteral
    ensures |args| == 3 ==> c.callback == args[2] && c.options == EmptyLiteral
    ensures |args| != 2 && |args| != 3 ==> c.callback == Arg(args, 3)
    ensures c.options.Passed? ==> Truthy(c.options.value) && c.options.value == Arg(args, 2)
    ensures |args| >= 4 && Truthy(args[2]) ==> c.options == Passed(args[2])
  {
    var query, fields := Arg(args, 0), Arg(args, 1);
    if |args| == 2 then
      SearchCall(query, fields, EmptyLiteral, Arg(args, 1))
    else if |args| == 3 then
      SearchCall(query, fields, EmptyLiteral, Arg(args, 2))
    else
      SearchCall(query, fields, if Truthy(Arg(args, 2)) then Passed(Arg(args, 2)) else EmptyLiteral, Arg(args, 3))
  }

  /**
   * The three call shapes reach the same callback; in the two-argument shape
   * the `fields` parameter still holds the callback.
   */
  lemma CallShapes<O>(query: JsValue<O>, fields: JsValue<O>, options: JsValue<O>, callback: JsValue<O>)
    ensures Dispatch([query, callback]) == SearchCall(query, callback, EmptyLiteral, callback)
    ensures Dispatch([query, fields, callback]) == SearchCall(query, fields, EmptyLiteral, callback)
    ensures Dispatch([query, fields, options, callback])
         == SearchCall(query, fields, if Truthy(options) then Passed(options) else EmptyLiteral, callback)
  {
  }
}
