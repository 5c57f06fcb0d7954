/**
 * The JavaScript values the adapter inspects, the property reads it performs on
 * them, and the errors it throws.
 *
 * Only what the adapter looks at is distinguished: the falsy values, the
 * `typeof` classes, plain objects with ordered own properties, rendering
 * elements, and the rendering engine's internal instances with the
 * underscore-prefixed fields the tree walker reads.
 */
module Js {

  datatype Option<+T> = None | Some(value: T)

  datatype Value =
    | Undefined
    | Null
    | Bool(b: bool)
    | Num(n: int)
    | Str(s: string)
      /** A function object (a component definition, an event handler): `typeof` gives 'function'. */
    | Func(id: nat)
      /** An object none of whose properties the adapter reads (a DOM node, a component instance, an array). */
    | Object(id: nat)
      /** A plain object; `entries` are its own properties in enumeration order, keys distinct. */
    | Record(entries: seq<(string, Value)>)
      /** A rendering element: `el.type`, `el.props`, `el.key`, `el.ref`. */
    | Element(elementType: Value, props: Value, key: Value, ref: Value)
      /** An internal render instance: `_currentElement`, `_renderedChildren`, `_hostNode`,
          `_instance`, `_compositeType`, `_renderedComponent`. */
    | Instance(currentElement: Value, renderedChildren: ChildMap, hostNode: Value,
               publicInstance: Value, compositeType: Value, renderedComponent: Value)

  /** `_renderedChildren`: absent, or an object mapping child keys to child instances. */
  datatype ChildMap = NoChildren | Keyed(entries: seq<(string, Value)>)

  /** The values JavaScript treats as true in a condition (numbers are integers here, so no NaN). */
  predicate Truthy(v: Value) {
    match v
    case Undefined => false
    case Null => false
    case Bool(b) => b
    case Num(n) => n != 0
    case Str(s) => s != ""
    case _ => true
  }

  /** `typeof v === 'object'`, which holds for null too. */
  predicate IsObject(v: Value) {
    v.Null? || v.Object? || v.Record? || v.Element? || v.Instance?
  }

  predicate Nullish(v: Value) {
    v.Undefined? || v.Null?
  }

  /** `a || b`: the first operand if it is truthy, the second otherwise. */
  function Or(a: Value, b: Value): Value {
    if Truthy(a) then a else b
  }

  /** `r` is one of the values stored directly in `v`. */
  ghost predicate DirectPart(r: Value, v: Value) {
    match v
    case Record(es) => exists i :: 0 <= i < |es| && r == es[i].1
    case Element(t, p, k, f) => r == t || r == p || r == k || r == f
    case Instance(el, _, host, pub, code, child) =>
      r == el || r == host || r == pub || r == code || r == child
    case _ => false
  }

  /** The position of the first property called `name`, or -1. */
  function IndexOf(es: seq<(string, Value)>, name: string): (i: int)
    ensures -1 <= i < |es|
    ensures 0 <= i ==> es[i].0 == name && forall j :: 0 <= j < i ==> es[j].0 != name
    ensures i == -1 <==> forall j :: 0 <= j < |es| ==> es[j].0 != name
  {
    if es == [] then -1
    else if es[0].0 == name then 0
    else
      var j := IndexOf(es[1..], name);
      if j < 0 then -1 else j + 1
  }

  /** `v[name]` on a value that is neither null nor undefined: a missing property reads as undefined. */
  function Get(v: Value, name: string): (r: Value)
    requires !Nullish(v)
    ensures r == Undefined || DirectPart(r, v)
  {
    match v
    case Record(es) =>
      var i := IndexOf(es, name);
      if i < 0 then Undefined else es[i].1
    case Element(t, p, k, f) =>
      if name == "type" then t
      else if name == "props" then p
      else if name == "key" then k
      else if name == "ref" then f
      else Undefined
    case Instance(el, _, host, pub, code, child) =>
      if name == "_currentElement" then el
      else if name == "_hostNode" then host
      else if name == "_instance" then pub
      else if name == "_compositeType" then code
      else if name == "_renderedComponent" then child
      else Undefined
    case _ => Undefined
  }

  /** `v[name]` on any value: reading a property of null or undefined throws a TypeError. */
  function Field(v: Value, name: string): (r: Result<Value>)
    ensures r.Err? <==> Nullish(v)
    ensures r.Err? ==> r.error == ReadOfNullish(name)
    ensures r.Ok? ==> r.value == Get(v, name)
  {
    if Nullish(v) then Err(ReadOfNullish(name)) else Ok(Get(v, name))
  }

  /** What the adapter throws, and the one TypeError the language throws for it. */
  datatype Error =
      /** "Enzyme Internal Error: unknown composite type ..." */
    | UnknownCompositeType(code: Value)
      /** "Enzyme Internal Error: unknown instance encountered" */
    | UnknownInstance
      /** "Enzyme Internal Error: Unrecognized mode: ..." */
    | UnrecognizedMode(mode: Value)
      /** TypeError "ReactWrapper::simulate() event '<event>' does not exist" */
    | NoSuchEvent(event: string)
      /** TypeError raised when reading `property` of null or undefined */
    | ReadOfNullish(property: string)
      /** what the environment check for a mode needing a DOM throws */
    | DomUnavailable(modeName: string)
      /** TypeError raised when calling `callee`, a truthy value that is not a function */
    | NotAFunction(callee: string)
  {
    /** The errors the adapter marks as "Enzyme Internal Error". */
    predicate IsInternal() {
      UnknownCompositeType? || UnknownInstance? || UnrecognizedMode?
    }

    predicate IsTypeError() {
      NoSuchEvent? || ReadOfNullish? || NotAFunction?
    }
  }

  /** A value, or the error thrown while computing it. */
  datatype Result<+T> = Ok(value: T) | Err(error: Error) {
    predicate IsFailure() {
      Err?
    }

    function PropagateFailure<U>(): Result<U>
      requires Err?
    {
      Err(error)
    }

    function Extract(): T
      requires Ok?
    {
      value
    }
  }
}
