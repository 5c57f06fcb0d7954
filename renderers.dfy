/**
 * The mount and shallow renderers: the state each keeps between calls, what
 * `render` changes, what `getNode` builds from it, and the guards of
 * `simulateEvent`. The rendering engine, the test utilities and the helper
 * modules they call are not part of this model; each call into them is a
 * function-typed field of an engine record.
 */
module Renderers {
  import opened Js
  import opened Rst
  import opened Walker

  /** The calls the mount renderer makes into the DOM renderer and the test utilities. */
  datatype DomEngine = DomEngine(
    /** React.createElement(type, props) */
    createElement: (Value, Value) -> Value,
    /** ReactDOM.render(element, container): the public instance of the rendered root */
    render: (Value, Value) -> Value,
    /** ReactDOM.findDOMNode(instance) */
    findDOMNode: Value -> Value,
    /** mapNativeEventNames(event) */
    nativeEventName: string -> string,
    /** TestUtils.Simulate[name]: a dispatcher function, or undefined */
    simulator: string -> Value)

  /** The calls the shallow renderer makes into the one-level renderer and the helper modules. */
  datatype ShallowEngine = ShallowEngine(
    /** renderer.getRenderOutput() after renderer.render(element, context) */
    renderOutput: (Value, Value) -> Value,
    /** renderer._instance._instance after renderer.render(element, context) */
    rootInstance: (Value, Value) -> Value,
    /** elementToTree(element) */
    elementToTree: Value -> Tree,
    /** propFromEvent(event) */
    propFromEvent: string -> string)

  /** SimpleWrapper: the component class that renders `props.node`. */
  const SimpleWrapper: Value := Func(0)

  /** The element the mount renderer hands to the DOM renderer: `<SimpleWrapper node={el} />`. */
  function Wrapped(engine: DomEngine, el: Value): Value {
    engine.createElement(SimpleWrapper, Record([("node", el)]))
  }

  /**
   * The mount renderer's `getNode`: the tree below the wrapper, read through
   * `instance._reactInternalInstance._renderedComponent`.
   */
  function MountedTree(instance: Value): (r: Result<Tree>)
    ensures Nullish(instance) ==> r == Err(ReadOfNullish("_reactInternalInstance"))
    ensures r.Ok? ==> WellFormed(r.value)
  {
    var internal :- Field(instance, "_reactInternalInstance");
    var root :- Field(internal, "_renderedComponent");
    InstanceToTree(root)
  }

  /**
   * When the root's internal instance is the wrapper's, `getNode` is exactly
   * the conversion of the wrapper's one rendered component: the wrapper
   * itself never appears in the tree.
   */
  lemma WrapperNotInTree(wrapperElement: Value, publicInstance: Value, code: Value, root: Value)
    ensures MountedTree(Record([("_reactInternalInstance",
                                 Instance(wrapperElement, NoChildren, Null, publicInstance, code, root))]))
            == InstanceToTree(root)
  {
    var internal := Instance(wrapperElement, NoChildren, Null, publicInstance, code, root);
    assert Get(Record([("_reactInternalInstance", internal)]), "_reactInternalInstance") == internal;
  }

  /** What the mount renderer's `simulateEvent` hands to the dispatcher. */
  datatype Dispatch = Dispatch(dispatcher: Value, target: Value, mock: Value)

  /** The renderer `createMountRenderer` returns, over the container `domNode`. */
  class MountRenderer {
    const engine: DomEngine
    const domNode: Value
    /** What the last `render` got back from the DOM renderer, null before the first. */
    var instance: Value

    /** The closure state of createMountRenderer: the container is `attachTo`, or else `container`. */
    constructor (engine: DomEngine, attachTo: Value, container: Value)
      ensures this.engine == engine
      ensures domNode == Or(attachTo, container)
      ensures instance == Null
    {
      this.engine := engine;
      domNode := Or(attachTo, container);
      instance := Null;
    }

    /** Renders `el` wrapped in SimpleWrapper into the container and keeps the root instance. */
    method Render(el: Value)
      modifies this
      ensures instance == engine.render(Wrapped(engine, el), domNode)
    {
      instance := engine.render(Wrapped(engine, el), domNode);
    }

    method GetNode() returns (r: Result<Tree>)
      ensures r == MountedTree(instance)
    {
      r := MountedTree(instance);
    }

    /**
     * Maps the event name, and throws a TypeError naming the event when the
     * test utilities have no dispatcher for the mapped name; otherwise
     * dispatches on the DOM node of `node.instance`. The arguments are
     * evaluated before the call, so a dispatcher that is not a function
     * throws only once `node.instance` has been read.
     */
    method SimulateEvent(node: Tree, event: string, mock: Value) returns (r: Result<Dispatch>)
      ensures var mapped := engine.nativeEventName(event);
              var dispatcher := engine.simulator(mapped);
              && (!Truthy(dispatcher) ==> r == Err(NoSuchEvent(event)))
              && (Truthy(dispatcher) ==>
                    && (r.Ok? <==> TreeField(node, "instance").Ok? && dispatcher.Func?)
                    && (TreeField(node, "instance").Err? ==> r == Err(ReadOfNullish("instance")))
                    && (TreeField(node, "instance").Ok? && !dispatcher.Func? ==> r == Err(NotAFunction(mapped)))
                    && (r.Ok? ==> r.value == Dispatch(dispatcher,
                                                      engine.findDOMNode(TreeField(node, "instance").value),
                                                      mock)))
    {
      var mapped := engine.nativeEventName(event);
      var dispatcher := engine.simulator(mapped);
      if !Truthy(dispatcher) {
        return Err(NoSuchEvent(event));
      }
      var target := TreeField(node, "instance");
      if target.Err? {
        return Err(target.error);
      }
      var domNode := engine.findDOMNode(target.value);
      if !dispatcher.Func? {
        return Err(NotAFunction(mapped));
      }
      r := Ok(Dispatch(dispatcher, domNode, mock));
    }
  }

  /** What the shallow renderer's `simulateEvent` does. */
  datatype HandlerCall = NoHandler | Called(handler: Value, args: seq<Value>)

  /** The renderer `createShallowRenderer` returns. */
  class ShallowRenderer {
    const engine: ShallowEngine
    /** Whether the last element rendered had a string (host) type. */
    var isDOM: bool
    /** The last element passed to `render`, null before the first. */
    var cachedNode: Value
    /** The element and context the one-level renderer last rendered, if any. */
    var delegated: Option<(Value, Value)>

    /**
     * The state a successful `render` leaves: a host element is kept without
     * rendering anything, any other element has been handed to the one-level
     * renderer.
     */
    ghost predicate Settled()
      reads this
    {
      && !Nullish(cachedNode)
      && (isDOM <==> Get(cachedNode, "type").Str?)
      && (!isDOM ==> delegated.Some? && delegated.value.0 == cachedNode)
    }

    constructor (engine: ShallowEngine)
      ensures this.engine == engine
      ensures !isDOM && cachedNode == Null && delegated == None
    {
      this.engine := engine;
      isDOM := false;
      cachedNode := Null;
      delegated := None;
    }

    /**
     * Keeps `el`; an element whose `type` is a string only sets `isDOM`,
     * anything else clears it and is rendered one level deep. Reading the
     * type of null or undefined throws after `el` has been kept.
     */
    method Render(el: Value, context: Value) returns (r: Result<()>)
      modifies this
      ensures cachedNode == el
      ensures Nullish(el) ==> r == Err(ReadOfNullish("type")) &&
                              isDOM == old(isDOM) && delegated == old(delegated)
      ensures !Nullish(el) && Get(el, "type").Str? ==> r.Ok? && isDOM && delegated == old(delegated)
      ensures !Nullish(el) && !Get(el, "type").Str? ==> r.Ok? && !isDOM && delegated == Some((el, context))
      ensures r.Ok? ==> Settled()
    {
      cachedNode := el;
      var ty := Field(el, "type");
      if ty.Err? {
        return Err(ty.error);
      }
      if ty.value.Str? {
        isDOM := true;
      } else {
        isDOM := false;
        delegated := Some((el, context));
      }
      r := Ok(());
    }

    /**
     * A host element is converted as an element; otherwise the node is a
     * 'class' node (whatever kind of component was rendered) carrying the kept
     * element's `type`, `props`, `key` and `ref`, whose single `rendered`
     * value is the conversion of the one-level output.
     */
    method GetNode() returns (r: Result<Tree>)
      ensures Settled() ==> r.Ok?
      ensures isDOM ==> r == Ok(engine.elementToTree(cachedNode))
      ensures !isDOM && Nullish(cachedNode) ==> r == Err(ReadOfNullish("type"))
      ensures !isDOM && !Nullish(cachedNode) && delegated.None? ==> r == Err(ReadOfNullish("_instance"))
      ensures !isDOM && !Nullish(cachedNode) && delegated.Some? ==>
                var (el, context) := delegated.value;
                r == Ok(Node(Class, Get(cachedNode, "type"), Get(cachedNode, "props"),
                             Get(cachedNode, "key"), Get(cachedNode, "ref"),
                             engine.rootInstance(el, context),
                             One(engine.elementToTree(engine.renderOutput(el, context)))))
    {
      if isDOM {
        return Ok(engine.elementToTree(cachedNode));
      }
      // a one-level renderer that has rendered nothing yet has no output
      var output := if delegated.Some? then engine.renderOutput(delegated.value.0, delegated.value.1) else Null;
      var ty := Field(cachedNode, "type");
      if ty.Err? {
        return Err(ty.error);
      }
      if delegated.None? {
        // ... and no `_instance` to read `_instance` from
        return Err(ReadOfNullish("_instance"));
      }
      r := Ok(Node(Class, ty.value, Get(cachedNode, "props"), Get(cachedNode, "key"), Get(cachedNode, "ref"),
                   engine.rootInstance(delegated.value.0, delegated.value.1),
                   One(engine.elementToTree(output))));
    }

    /**
     * Looks the handler up on `node.props` under the prop name of the event
     * and calls it with `args` when it is set; a missing handler is a no-op,
     * and a set handler that is not a function throws a TypeError.
     */
    method SimulateEvent(node: Tree, event: string, args: seq<Value>) returns (r: Result<HandlerCall>)
      ensures var props := TreeField(node, "props");
              && (props.Err? ==> r == Err(props.error))
              && (props.Ok? ==>
                    var name := engine.propFromEvent(event);
                    var handler := Field(props.value, name);
                    && (handler.Err? ==> r == Err(handler.error))
                    && (handler.Ok? && !Truthy(handler.value) ==> r == Ok(NoHandler))
                    && (handler.Ok? && Truthy(handler.value) && !handler.value.Func? ==> r == Err(NotAFunction(name)))
                    && (handler.Ok? && handler.value.Func? ==> r == Ok(Called(handler.value, args))))
    {
      var props :- TreeField(node, "props");
      var name := engine.propFromEvent(event);
      var handler :- Field(props, name);
      if !Truthy(handler) {
        r := Ok(NoHandler);
      } else if !handler.Func? {
        r := Err(NotAFunction(name));
      } else {
        r := Ok(Called(handler, args));
      }
    }
  }

  /** `getNode` on a mount renderer that has rendered nothing reads a property of null. */
  method MountGetNodeBeforeRender(engine: DomEngine, attachTo: Value, container: Value) returns (t: Result<Tree>)
    ensures t == Err(ReadOfNullish("_reactInternalInstance"))
  {
    var renderer := new MountRenderer(engine, attachTo, container);
    t := renderer.GetNode();
  }

  /** After `render`, `getNode` converts what the DOM renderer returned for the wrapped element. */
  method MountRenderThenGetNode(engine: DomEngine, attachTo: Value, container: Value, el: Value)
    returns (t: Result<Tree>)
    ensures t == MountedTree(engine.render(Wrapped(engine, el), Or(attachTo, container)))
    ensures t.Ok? ==> WellFormed(t.value)
  {
    var renderer := new MountRenderer(engine, attachTo, container);
    renderer.Render(el);
    t := renderer.GetNode();
  }

  /** `getNode` on a shallow renderer that has rendered nothing reads the type of null. */
  method ShallowGetNodeBeforeRender(engine: ShallowEngine) returns (t: Result<Tree>)
    ensures t == Err(ReadOfNullish("type"))
  {
    var renderer := new ShallowRenderer(engine);
    t := renderer.GetNode();
  }

  /** Shallow-rendering a host element renders nothing: `getNode` converts the element itself. */
  method ShallowRenderHostElement(engine: ShallowEngine, el: Value, context: Value) returns (t: Result<Tree>)
    requires !Nullish(el) && Get(el, "type").Str?
    ensures t == Ok(engine.elementToTree(el))
  {
    var renderer := new ShallowRenderer(engine);
    var _ := renderer.Render(el, context);
    t := renderer.GetNode();
  }

  /**
   * Shallow-rendering a component: the node's shell is the unrendered element
   * and only `rendered` comes from the one-level output.
   */
  method ShallowRenderComponent(engine: ShallowEngine, el: Value, context: Value) returns (t: Result<Tree>)
    requires !Nullish(el) && !Get(el, "type").Str?
    ensures t.Ok? && CopiesElement(t.value, el) && t.value.nodeType == Class
    ensures t.value.instance == engine.rootInstance(el, context)
    ensures t.value.rendered == One(engine.elementToTree(engine.renderOutput(el, context)))
  {
    var renderer := new ShallowRenderer(engine);
    var _ := renderer.Render(el, context);
    t := renderer.GetNode();
  }

  /**
   * Rendering a host element after a component switches `getNode` to the host
   * element, while the one-level renderer still holds the component.
   */
  method ShallowRenderComponentThenHost(engine: ShallowEngine, component: Value, host: Value, context: Value)
    returns (t: Result<Tree>, last: Option<(Value, Value)>)
    requires !Nullish(component) && !Get(component, "type").Str?
    requires !Nullish(host) && Get(host, "type").Str?
    ensures t == Ok(engine.elementToTree(host))
    ensures last == Some((component, context))
  {
    var renderer := new ShallowRenderer(engine);
    var ignored := renderer.Render(component, context);
    ignored := renderer.Render(host, context);
    t := renderer.GetNode();
    last := renderer.delegated;
  }
}
