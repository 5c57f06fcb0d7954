/**
 * instanceToTree: the walk from the engine's internal instance graph to the
 * canonical tree, and the shape of what it returns.
 */
module Walker {
  import opened Js
  import opened Rst

  /**
   * What `array.map(f)` gives when `rs[i]` is the outcome of `f` on the i-th
   * element: the array of all results, or the first error thrown.
   */
  function Collect<T>(rs: seq<Result<T>>): (r: Result<seq<T>>)
    ensures r.Ok? <==> forall i :: 0 <= i < |rs| ==> rs[i].Ok?
    ensures r.Ok? ==> |r.value| == |rs| && forall i :: 0 <= i < |rs| ==> rs[i] == Ok(r.value[i])
    ensures r.Err? ==> exists i :: 0 <= i < |rs| && rs[i] == Err(r.error) &&
                                   forall j :: 0 <= j < i ==> rs[j].Ok?
  {
    if rs == [] then Ok([])
    else
      match rs[0]
      case Err(e) => Err(e)
      case Ok(t) =>
        var rest :- Collect(rs[1..]);
        Ok([t] + rest)
  }

  /** The node built from `el` (not null or undefined): `type`, `props`, `key` and `ref` come from it. */
  function NodeFrom(nodeType: NodeType, el: Value, instance: Value, rendered: Rendered): Tree
    requires !Nullish(el)
  {
    Node(nodeType, Get(el, "type"), Get(el, "props"), Get(el, "key"), Get(el, "ref"), instance, rendered)
  }

  /** `inst._instance || inst._hostNode || null` */
  function InstanceRef(publicInstance: Value, hostNode: Value): Value {
    Or(Or(publicInstance, hostNode), Null)
  }

  /** The node `t` copies `type`, `props`, `key` and `ref` from `el`. */
  predicate CopiesElement(t: Tree, el: Value)
    requires !Nullish(el)
  {
    t.Node? && t.elementType == Get(el, "type") && t.props == Get(el, "props") &&
    t.key == Get(el, "key") && t.ref == Get(el, "ref")
  }

  /**
   * instanceToTree. A value that is falsy or not an object comes back as it
   * is; an object without a current element gives null; an instance is then
   * converted by the first of its shapes that applies: it has rendered
   * children, it is a host node, it has one rendered component. Any other
   * instance is an internal error. Errors thrown below propagate unchanged.
   */
  function InstanceToTree(v: Value): (r: Result<Tree>)
    decreases if v.Instance? then 1 else 0, v, 1
    ensures r.Ok? ==> WellFormed(r.value)
    ensures r.Err? ==> r.error.UnknownCompositeType? || r.error == UnknownInstance ||
                       r.error == ReadOfNullish("children")
  {
    if !Truthy(v) || !IsObject(v) then Ok(Leaf(v))
    else
      match v
      case Instance(el, children, host, pub, code, child) =>
        if !Truthy(el) then Ok(Leaf(Null))
        else if children.Keyed? then
          var nodeType :- if Truthy(host) then Ok(Host) else CompositeTypeToNodeType(code);
          var items :- Collect(ConvertChildren(v, 0));
          Ok(NodeFrom(nodeType, el, InstanceRef(pub, host), Many(items)))
        else if Truthy(host) then
          if !IsObject(el) then Ok(Leaf(el))
          else
            // `_renderedChildren` is known to be absent here, so the
            // `_renderedChildren || { '.0': el.props.children }` of the
            // source always takes its second operand.
            var props := Get(el, "props");
            if Nullish(props) then Err(ReadOfNullish("children"))
            else
              var item :- InstanceToTree(Get(props, "children"));
              Ok(NodeFrom(Host, el, InstanceRef(pub, host), Many([item])))
        else if Truthy(child) then
          var nodeType :- CompositeTypeToNodeType(code);
          var item :- InstanceToTree(child);
          Ok(NodeFrom(nodeType, el, InstanceRef(pub, host), One(item)))
        else Err(UnknownInstance)
      case _ =>
        // any other object has no `_currentElement`
        Ok(Leaf(Null))
  }

  /**
   * `values(inst._renderedChildren).map(instanceToTree)` from the `k`-th
   * child on: each child's outcome, in the children's enumeration order.
   */
  function ConvertChildren(v: Value, k: nat): (rs: seq<Result<Tree>>)
    requires v.Instance? && v.renderedChildren.Keyed? && k <= |v.renderedChildren.entries|
    decreases 1, v, 0, |v.renderedChildren.entries| - k
    ensures |rs| == |v.renderedChildren.entries| - k
    ensures forall i :: 0 <= i < |rs| ==> rs[i] == InstanceToTree(v.renderedChildren.entries[k + i].1)
  {
    var cs := v.renderedChildren.entries;
    if k == |cs| then []
    else [InstanceToTree(cs[k].1)] + ConvertChildren(v, k + 1)
  }

  /** A value that is falsy or not an object is returned as it is. */
  lemma NotAnObjectUnchanged(v: Value)
    requires !Truthy(v) || !IsObject(v)
    ensures InstanceToTree(v) == Ok(Leaf(v))
  {
  }

  /** An object without a (truthy) current element converts to null. */
  lemma NoElementIsNull(v: Value)
    requires Truthy(v) && IsObject(v)
    requires !v.Instance? || !Truthy(v.currentElement)
    ensures InstanceToTree(v) == Ok(Leaf(Null))
  {
  }

  /**
   * An instance with rendered children gives a node whose `rendered` array
   * has one entry per child, in order, each the child's own conversion; it
   * is a host node exactly when `_hostNode` is set, and is otherwise
   * classified by `_compositeType`. The conversion fails exactly when the
   * classifier or some child fails, with the classifier's error first.
   */
  lemma MultiChildNode(v: Value)
    requires v.Instance? && Truthy(v.currentElement) && v.renderedChildren.Keyed?
    ensures var r := InstanceToTree(v);
            var cs := v.renderedChildren.entries;
            && (r.Ok? <==> (Truthy(v.hostNode) || CompositeTypeToNodeType(v.compositeType).Ok?) &&
                           forall i :: 0 <= i < |cs| ==> InstanceToTree(cs[i].1).Ok?)
            && (!Truthy(v.hostNode) && CompositeTypeToNodeType(v.compositeType).Err? ==>
                  r == Err(UnknownCompositeType(v.compositeType)))
            && (r.Ok? ==>
                  && CopiesElement(r.value, v.currentElement)
                  && r.value.instance == InstanceRef(v.publicInstance, v.hostNode)
                  && (r.value.nodeType == Host <==> Truthy(v.hostNode))
                  && (!Truthy(v.hostNode) ==> CompositeTypeToNodeType(v.compositeType) == Ok(r.value.nodeType))
                  && r.value.rendered.Many?
                  && |r.value.rendered.items| == |cs|
                  && forall i :: 0 <= i < |cs| ==> InstanceToTree(cs[i].1) == Ok(r.value.rendered.items[i]))
  {
    var kind := if Truthy(v.hostNode) then Ok(Host) else CompositeTypeToNodeType(v.compositeType);
    var cs := v.renderedChildren.entries;
    var rs := ConvertChildren(v, 0);
    var items := Collect(rs);
    assert items.Ok? <==> forall i :: 0 <= i < |cs| ==> InstanceToTree(cs[i].1).Ok? by {
      assert forall i :: 0 <= i < |cs| ==> rs[i] == InstanceToTree(cs[i].1);
    }
    assert InstanceToTree(v) ==
      if kind.Err? then Err(kind.error)
      else if items.Err? then Err(items.error)
      else Ok(NodeFrom(kind.value, v.currentElement, InstanceRef(v.publicInstance, v.hostNode),
                       Many(items.value)));
  }

  /**
   * A host instance without rendered children returns its element when that
   * is not an object (text); otherwise its single child is the element's
   * `props.children`, converted and wrapped in a one-entry array.
   */
  lemma HostLeafNode(v: Value)
    requires v.Instance? && Truthy(v.currentElement) && v.renderedChildren.NoChildren?
    requires Truthy(v.hostNode)
    ensures var r := InstanceToTree(v);
            var el := v.currentElement;
            && (!IsObject(el) ==> r == Ok(Leaf(el)))
            && (IsObject(el) && Nullish(Get(el, "props")) ==> r == Err(ReadOfNullish("children")))
            && (IsObject(el) && !Nullish(Get(el, "props")) ==>
                  var child := InstanceToTree(Get(Get(el, "props"), "children"));
                  && (r.Ok? <==> child.Ok?)
                  && (r.Err? ==> r == child)
                  && (r.Ok? ==> && CopiesElement(r.value, el)
                                && r.value.nodeType == Host
                                && r.value.instance == InstanceRef(v.publicInstance, v.hostNode)
                                && r.value.rendered == Many([child.value])))
  {
  }

  /**
   * An instance with one rendered component gives a node classified by
   * `_compositeType` whose `rendered` is that component's conversion itself,
   * not an array.
   */
  lemma CompositeNode(v: Value)
    requires v.Instance? && Truthy(v.currentElement) && v.renderedChildren.NoChildren?
    requires !Truthy(v.hostNode) && Truthy(v.renderedComponent)
    ensures var r := InstanceToTree(v);
            var kind := CompositeTypeToNodeType(v.compositeType);
            var child := InstanceToTree(v.renderedComponent);
            && (kind.Err? ==> r == Err(kind.error))
            && (kind.Ok? ==> (r.Ok? <==> child.Ok?) && (child.Err? ==> r == Err(child.error)))
            && (r.Ok? ==> && CopiesElement(r.value, v.currentElement)
                          && Ok(r.value.nodeType) == kind
                          && r.value.nodeType != Host
                          && r.value.instance == Or(v.publicInstance, Null)
                          && r.value.rendered == One(child.value))
  {
  }

  /** An instance with an element but none of the known shapes is an internal error. */
  lemma UnknownShapeFails(v: Value)
    requires v.Instance? && Truthy(v.currentElement) && v.renderedChildren.NoChildren?
    requires !Truthy(v.hostNode) && !Truthy(v.renderedComponent)
    ensures InstanceToTree(v) == Err(UnknownInstance)
    ensures InstanceToTree(v).error.IsInternal()
  {
  }

  /**
   * A mounted `<div>` with the text children "a" and "b": two text instances
   * under a host instance give a host node whose `rendered` is ['a', 'b'].
   */
  lemma DivWithTwoTexts(div: Value, a: Value, b: Value, props: Value)
    requires a == Instance(Str("a"), NoChildren, Object(1), Undefined, Undefined, Undefined)
    requires b == Instance(Str("b"), NoChildren, Object(2), Undefined, Undefined, Undefined)
    requires div == Instance(Element(Str("div"), props, Null, Null), Keyed([(".0", a), (".1", b)]),
                             Object(3), Undefined, Undefined, Undefined)
    ensures InstanceToTree(div) ==
            Ok(Node(Host, Str("div"), props, Null, Null, Object(3), Many([Leaf(Str("a")), Leaf(Str("b"))])))
  {
    HostLeafNode(a);
    HostLeafNode(b);
    MultiChildNode(div);
    var t := InstanceToTree(div).value;
    assert t.rendered.items == [Leaf(Str("a")), Leaf(Str("b"))];
  }
}
