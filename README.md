# React 15 adapter: tree normalisation and renderer state

This project models the core of the React 15 adapter of a component-testing
library. The adapter turns the rendering engine's internal instance graph into a
canonical inspection tree of nodes. Each node has a `nodeType` (`host`, `class`
or `function`), the element's `type`, `props`, `key` and `ref`, a reference to
the backing `instance`, and its `rendered` children. The adapter also creates
the renderers that tests drive.

- `js.dfy` (module `Js`): the JavaScript values the adapter inspects: falsy
  values, `typeof` classes, plain objects, elements and internal instances. It
  also holds property reads (a read of `null`/`undefined` throws a TypeError),
  the errors thrown, and a `Result` type.
- `rst.dfy` (module `Rst`): the canonical node, the `compositeTypeToNodeType`
  classifier, and the shape every converted tree has (`WellFormed`).
- `walker.dfy` (module `Walker`): `instanceToTree` as one function over the
  instance datatype. It tries the source's shapes in the source's order. One
  lemma per shape states what the result is.
- `renderers.dfy` (module `Renderers`): the mount and shallow renderers as
  classes. Their closure state becomes fields: `instance`; and `isDOM`,
  `cachedNode`. Client methods show what a sequence of calls produces.
- `adapter.dfy` (module `Adapter`): the mode dispatch of `createRenderer`, and
  `nodeToElement` with its round trip through the walker.

Calls into the rendering engine, the test utilities and helper modules are
taken as parameters. They are function-typed fields of the `DomEngine` and
`ShallowEngine` records, plus `domAvailable` and `container` arguments. Nothing
is claimed about them. The model keeps, of the one-level renderer, only which
`(element, context)` it last rendered (`ShallowRenderer.delegated`); its output
and root instance are read through the engine as functions of that pair. The
mount renderer's root instance is a value. Both are therefore snapshots (see
"## Left out").

Behaviour of the code worth noting, as the model keeps it:

- The shallow `getNode` labels the component node `'class'` whatever component
  was rendered (line 139). It does not call the classifier.
- Text leaves are the raw value, not nodes with a `text` type. Node types are
  the strings `host`, `class` and `function`.
- At line 49, `inst._renderedChildren || { '.0': el.props.children }` always
  takes its second operand, because line 34 has already returned for instances
  with rendered children. The model writes only that operand.
- An instance with both `_renderedChildren` and `_hostNode` is a `host` node and
  is never classified. An unknown `_compositeType` on it therefore does not
  throw.
- The mode names (`EnzymeAdapter.MODES`) are defined in `EnzymeAdapter.js`,
  which is not part of this model. `SelectMode` takes them as a `ModeNames`
  argument and compares them in the source's order.

## Model

| member | source | states |
|---|---|---|
| Rst.CompositeTypeToNodeType | src/adapters/ReactFifteenAdapter.js:16-24 | codes 0 and 1 give class and 2 gives function, under strict equality; every other value is an internal "unknown composite type" error carrying that value, never a default |
| Walker.InstanceToTree | src/adapters/ReactFifteenAdapter.js:26-72 | every tree it returns is well formed at every depth: leaves hold no truthy object, `instance` is a live reference or null, host nodes have a live reference and an array `rendered`; every error is an unknown composite type, an unknown instance, or the TypeError from reading `children` of missing props |
| Walker.ConvertChildren | src/adapters/ReactFifteenAdapter.js:42 | one outcome per rendered child, in the children's enumeration order, each the child's own conversion |
| Walker.Collect | src/adapters/ReactFifteenAdapter.js:42 | `map` over the children succeeds exactly when every child converts; the result has one entry per child in order; otherwise the error is that of the first child that fails |
| Walker.NotAnObjectUnchanged | src/adapters/ReactFifteenAdapter.js:27-29 | a falsy or non-object value is returned unchanged |
| Walker.NoElementIsNull | src/adapters/ReactFifteenAdapter.js:30-33 | an object without a current element converts to null |
| Walker.MultiChildNode | src/adapters/ReactFifteenAdapter.js:34-43 | with rendered children: `rendered` has exactly as many entries as children, in order, each the child's conversion; `nodeType` is host exactly when `_hostNode` is set, else the classifier's answer; type, props, key and ref copied from the element; instance is `_instance`, else `_hostNode`, else null; fails exactly when the classifier or a child fails, the classifier first |
| Walker.HostLeafNode | src/adapters/ReactFifteenAdapter.js:45-58 | a host instance without rendered children returns a non-object element itself; otherwise a host node with the element's fields and a one-entry `rendered` array holding the conversion of `el.props.children`; missing props throw a TypeError |
| Walker.CompositeNode | src/adapters/ReactFifteenAdapter.js:60-69 | a single rendered component gives a node classified by `_compositeType` whose `rendered` is that component's conversion itself, not an array; the classifier's error comes before the child's |
| Walker.UnknownShapeFails | src/adapters/ReactFifteenAdapter.js:71 | an instance with an element but no known shape throws the internal "unknown instance" error |
| Walker.DivWithTwoTexts | src/adapters/ReactFifteenAdapter.js:34-47 | a host `div` instance over two text instances "a" and "b" converts to a host node of type div whose `rendered` is ['a', 'b'] |
| Renderers.MountedTree | src/adapters/ReactFifteenAdapter.js:97-99 | the mount `getNode` converts `instance._reactInternalInstance._renderedComponent`; with no instance it throws a TypeError; what it returns is well formed |
| Renderers.WrapperNotInTree | src/adapters/ReactFifteenAdapter.js:89-98 | the wrapper around the caller's element never appears: the tree is exactly the conversion of the wrapper's rendered component |
| Renderers.MountRenderer.constructor | src/adapters/ReactFifteenAdapter.js:85-86 | the container is `attachTo` if set, else a new element; the instance starts as null |
| Renderers.MountRenderer.Render | src/adapters/ReactFifteenAdapter.js:88-93 | the instance becomes what the DOM renderer returns for `<SimpleWrapper node={el} />` in the container |
| Renderers.MountRenderer.GetNode | src/adapters/ReactFifteenAdapter.js:97-99 | returns the conversion of the current root's wrapped component |
| Renderers.MountRenderer.SimulateEvent | src/adapters/ReactFifteenAdapter.js:100-108 | an event whose mapped name has no dispatcher throws a TypeError naming the event, before the node is looked at; otherwise reads `node.instance` (a TypeError on a null leaf), and then a dispatcher that is not a function throws a TypeError; otherwise dispatches on the DOM node of `node.instance` with the mock |
| Renderers.ShallowRenderer.constructor | src/adapters/ReactFifteenAdapter.js:116-118 | starts with `isDOM` false, no cached element and nothing rendered |
| Renderers.ShallowRenderer.Render | src/adapters/ReactFifteenAdapter.js:120-129 | caches the element; a string `type` sets `isDOM` and leaves the one-level renderer untouched; any other type clears `isDOM` and renders the element one level; a null element throws after being cached |
| Renderers.ShallowRenderer.GetNode | src/adapters/ReactFifteenAdapter.js:133-147 | with `isDOM`, the element's own tree; otherwise a 'class' node with the cached element's type, props, key and ref, the rendered root instance, and a single `rendered` value converted from the one-level output; after a successful `render` it always succeeds; before any it throws a TypeError |
| Renderers.ShallowRenderer.SimulateEvent | src/adapters/ReactFifteenAdapter.js:148-159 | calls the handler found on `node.props` under the event's prop name with the given arguments; does nothing when there is no handler; a set handler that is not a function throws a TypeError; reading `props` of a null leaf throws |
| Renderers.MountGetNodeBeforeRender | src/adapters/ReactFifteenAdapter.js:86-98 | `getNode` before any `render` throws a TypeError reading the internal instance of null |
| Renderers.MountRenderThenGetNode | src/adapters/ReactFifteenAdapter.js:85-99 | after `render(el)`, `getNode` converts what the DOM renderer returned for the wrapped element in the chosen container |
| Renderers.ShallowGetNodeBeforeRender | src/adapters/ReactFifteenAdapter.js:117-147 | `getNode` before any `render` throws a TypeError reading the type of null |
| Renderers.ShallowRenderHostElement | src/adapters/ReactFifteenAdapter.js:120-135 | after rendering an element with a string type, `getNode` is that element's own tree |
| Renderers.ShallowRenderComponent | src/adapters/ReactFifteenAdapter.js:120-146 | after rendering a component element, `getNode` is a 'class' node carrying the element's type, props, key and ref, with only `rendered` taken from the one-level output |
| Renderers.ShallowRenderComponentThenHost | src/adapters/ReactFifteenAdapter.js:120-135 | rendering a host element after a component switches `getNode` to the host element, and the one-level renderer still holds the component |
| Adapter.SelectMode | src/adapters/ReactFifteenAdapter.js:177-185 | mount, shallow and string modes are chosen by strict equality in that order; any other mode is an internal "unrecognized mode" error |
| Adapter.CreateRenderer | src/adapters/ReactFifteenAdapter.js:177-185 | an unrecognised mode throws; mount fails when no DOM is available and otherwise gives a fresh mount renderer over `attachTo` or a new container; shallow gives a fresh shallow renderer in its initial state |
| Adapter.NodeToElement | src/adapters/ReactFifteenAdapter.js:191-194 | null for a falsy or non-object node; for a node, or a leaf holding an object, an element built from its type and props |
| Adapter.NodeToElementRoundTrip | src/adapters/ReactFifteenAdapter.js:191-193 | converting an instance and turning the node back gives an element of the original element's type and props; a converted raw value gives null |

## Left out

- `batchedUpdates` of both renderers, `withSetStateAllowed` and the batching around the shallow event handler: their meaning belongs to the rendering engine's scheduler. A called handler is recorded as `Called(handler, args)`.
- `unmount` of both renderers: each is one call into the engine. The adapter's own state (`instance`, `isDOM`, `cachedNode`) is not touched by it.
- The string renderer: `render` only passes the element to server-side markup rendering. `CreateRenderer` returns `MarkupMode` for it.
- `elementToNode`, `nodeToHostNode`, `isValidElement` and `createElement` of the adapter: each is a direct call into code that is not part of this model.
- `SimpleWrapper`'s render method and its prop types. The mount renderer uses only its identity (`SimpleWrapper`).
- `elementToTree`, `mapNativeEventNames`, `propFromEvent` and `assertDomAvailable` live in files that are not part of this model. The first three are engine fields; the last is the `domAvailable` argument. The document element used as the default container is the `container` argument.
- Exceptions thrown inside the engine (by `ReactDOM.render`, the one-level renderer, a dispatcher or a handler) are not modelled. Calling a truthy dispatcher or handler that is not a function is modelled as the TypeError `NotAFunction`.
- Renderers.MountRenderer and Renderers.ShallowRenderer: the mounted root instance and the one-level renderer's output and `_instance` are snapshots. Changes a handler, a dispatcher or `setState` makes before the next `getNode` are not modelled, so `getNode` after `simulateEvent` gives the same tree as before it. An instance the one-level renderer updates in place across re-renders of the same component type is not distinguished from a remount.
- Renderers.MountRenderer.Render: `ReactDOM.render` is a function of the element and the container only, so a re-render into the same container is not distinguished from a first render.
- Renderers.ShallowRenderer.GetNode: a one-level renderer that has rendered nothing is taken to have no output and no `_instance`, which is how React 15's shallow renderer starts.
- Renderers.ShallowRenderer.Render: the value returned by the one-level renderer's `render` is not modelled.
- Numbers are integers: NaN, -0 and fractions are not modelled. Strict equality is Dafny equality, which also equates distinct plain objects with equal contents.
- `_renderedChildren` is either absent or an object of keyed children. Other truthy values there are not modelled.
- Reading a property of a string or other primitive gives undefined here (no `length`). A plain object carrying `_currentElement` is not treated as an internal instance. Reading `_renderedChildren` through a generic property read gives undefined.
- Error messages are structured values (`UnknownCompositeType(code)`, `NoSuchEvent(event)`, ...) rather than formatted strings.
