/**
 * The adapter's own operations: choosing a renderer for a mode, and turning a
 * canonical node back into an element.
 */
module Adapter {
  import opened Js
  import opened Rst
  import opened Walker
  import opened Renderers

  datatype Mode = Mount | Shallow | StaticMarkup

  /** The three mode names the adapter interface defines. */
  datatype ModeNames = ModeNames(mount: Value, shallow: Value, markup: Value)

  /** The options a renderer is created from: `options.mode` and `options.attachTo`. */
  datatype Options = Options(mode: Value, attachTo: Value)

  /**
   * The mode switch of createRenderer: cases are compared strictly and in
   * order, and an unrecognised mode is an internal error.
   */
  function SelectMode(mode: Value, names: ModeNames): (r: Result<Mode>)
    ensures r == Ok(Mount) <==> mode == names.mount
    ensures r == Ok(Shallow) <==> mode != names.mount && mode == names.shallow
    ensures r == Ok(StaticMarkup) <==> mode != names.mount && mode != names.shallow && mode == names.markup
    ensures r.Err? ==> r.error == UnrecognizedMode(mode) && r.error.IsInternal()
  {
    if mode == names.mount then Ok(Mount)
    else if mode == names.shallow then Ok(Shallow)
    else if mode == names.markup then Ok(StaticMarkup)
    else Err(UnrecognizedMode(mode))
  }

  datatype Renderer = MountMode(mount: MountRenderer) | ShallowMode(shallow: ShallowRenderer) | MarkupMode

  /**
   * createRenderer. `domAvailable` is whether the DOM check of the mount mode
   * passes, `container` the element created when `attachTo` is not set.
   */
  method CreateRenderer(options: Options, names: ModeNames, domAvailable: bool, container: Value,
                        dom: DomEngine, shallow: ShallowEngine)
    returns (r: Result<Renderer>)
    ensures SelectMode(options.mode, names).Err? ==> r == Err(UnrecognizedMode(options.mode))
    ensures SelectMode(options.mode, names) == Ok(Mount) ==>
              if !domAvailable then r == Err(DomUnavailable("mount"))
              else && r.Ok? && r.value.MountMode? && fresh(r.value.mount)
                   && r.value.mount.engine == dom
                   && r.value.mount.domNode == Or(options.attachTo, container)
                   && r.value.mount.instance == Null
    ensures SelectMode(options.mode, names) == Ok(Shallow) ==>
              && r.Ok? && r.value.ShallowMode? && fresh(r.value.shallow)
              && r.value.shallow.engine == shallow
              && !r.value.shallow.isDOM && r.value.shallow.cachedNode == Null
              && r.value.shallow.delegated == None
    ensures SelectMode(options.mode, names) == Ok(StaticMarkup) ==> r == Ok(MarkupMode)
  {
    var mode :- SelectMode(options.mode, names);
    match mode
    case Mount =>
      if !domAvailable {
        return Err(DomUnavailable("mount"));
      }
      var m := new MountRenderer(dom, options.attachTo, container);
      r := Ok(MountMode(m));
    case Shallow =>
      var s := new ShallowRenderer(shallow);
      r := Ok(ShallowMode(s));
    case StaticMarkup =>
      r := Ok(MarkupMode);
  }

  /** nodeToElement: null for a falsy or non-object node, else an element of the node's type and props. */
  function NodeToElement(node: Tree, createElement: (Value, Value) -> Value): (r: Value)
    ensures node.Leaf? && (!Truthy(node.value) || !IsObject(node.value)) ==> r == Null
    ensures node.Leaf? && Truthy(node.value) && IsObject(node.value) ==>
              r == createElement(Get(node.value, "type"), Get(node.value, "props"))
    ensures node.Node? ==> r == createElement(node.elementType, node.props)
  {
    match node
    case Leaf(v) =>
      if !Truthy(v) || !IsObject(v) then Null
      else createElement(Get(v, "type"), Get(v, "props"))
    case Node(_, ty, props, _, _, _, _) => createElement(ty, props)
  }

  /**
   * Converting an instance and turning the result back into an element gives
   * an element of the instance's element's type and props; a converted raw
   * value turns back into null.
   */
  lemma NodeToElementRoundTrip(v: Value, createElement: (Value, Value) -> Value)
    requires InstanceToTree(v).Ok?
    ensures var t := InstanceToTree(v).value;
            && (t.Leaf? ==> NodeToElement(t, createElement) == Null)
            && (t.Node? ==> && v.Instance? && !Nullish(v.currentElement)
                            && NodeToElement(t, createElement)
                               == createElement(Get(v.currentElement, "type"), Get(v.currentElement, "props")))
  {
  }
}
