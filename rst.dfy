/**
 * The canonical inspection tree the adapter produces, and the classifier from
 * the engine's composite-kind codes to node types.
 */
module Rst {
  import opened Js

  /** `nodeType` of a canonical node. */
  datatype NodeType = Host | Class | Function {
    function Name(): string {
      match this
      case Host => "host"
      case Class => "class"
      case Function => "function"
    }
  }

  /**
   * A conversion result: either a raw value passed through as it is (text,
   * numbers, null, ...) or a node. A node's `elementType` is its `type`.
   */
  datatype Tree =
    | Leaf(value: Value)
    | Node(nodeType: NodeType, elementType: Value, props: Value, key: Value, ref: Value,
           instance: Value, rendered: Rendered)

  /** `rendered` is an array for host and multi-child nodes, a single result for single-child composites. */
  datatype Rendered = Many(items: seq<Tree>) | One(item: Tree)

  /**
   * compositeTypeToNodeType: codes 0 and 1 are class components, 2 is a function
   * component; the switch compares strictly, and any other value is an internal error.
   */
  function CompositeTypeToNodeType(code: Value): (r: Result<NodeType>)
    ensures r == Ok(Class) <==> code == Num(0) || code == Num(1)
    ensures r == Ok(Function) <==> code == Num(2)
    ensures r.Err? <==> code != Num(0) && code != Num(1) && code != Num(2)
    ensures r.Err? ==> r.error == UnknownCompositeType(code) && r.error.IsInternal()
  {
    match code
    case Num(0) => Ok(Class)
    case Num(1) => Ok(Class)
    case Num(2) => Ok(Function)
    case _ => Err(UnknownCompositeType(code))
  }

  /**
   * `t[name]` for a conversion result: a leaf is read as the value it holds, a
   * node through the fields it has (`nodeType`, `type`, `props`, `key`, `ref`,
   * `instance`). `rendered` is never read through this function.
   */
  function TreeField(t: Tree, name: string): (r: Result<Value>)
    ensures t.Node? ==> r.Ok?
    ensures t.Leaf? ==> r == Field(t.value, name)
  {
    match t
    case Leaf(v) => Field(v, name)
    case Node(nt, ty, props, key, ref, inst, _) =>
      if name == "nodeType" then Ok(Str(nt.Name()))
      else if name == "type" then Ok(ty)
      else if name == "props" then Ok(props)
      else if name == "key" then Ok(key)
      else if name == "ref" then Ok(ref)
      else if name == "instance" then Ok(inst)
      else Ok(Undefined)
  }

  /**
   * The shape every tree built from an instance graph has: leaves hold no
   * truthy object, `instance` is a live reference or null (never undefined,
   * false, 0 or ""), host nodes are backed by a live reference and always
   * carry an array of children, and so on down the tree.
   */
  predicate WellFormed(t: Tree) {
    match t
    case Leaf(v) => !(Truthy(v) && IsObject(v))
    case Node(nt, _, _, _, _, inst, rendered) =>
      && (Truthy(inst) || inst == Null)
      && (nt == Host ==> Truthy(inst) && rendered.Many?)
      && match rendered
         case Many(items) => forall i :: 0 <= i < |items| ==> WellFormed(items[i])
         case One(item) => WellFormed(item)
  }
}
