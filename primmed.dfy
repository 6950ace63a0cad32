/**
 * The style-binding wrapper: `primmed` of src/configurePrim.tsx and `primp` of
 * prim.tsx, which have the same body. The wrapper renders the wrapped
 * component with the selector's styles first and the caller's `style` second,
 * forwards the outer ref, and is named after the wrapped component.
 */
module Primmed {
  import opened Tokens
  import opened Gate

  /** A prop value, as far as the wrapper looks at it. */
  datatype Prop =
    | Undefined
    | Fragment(entry: Entry)      // a registered style taken from the theme
    | Array(items: seq<Prop>)     // a style array
    | RefTo(target: nat)          // a ref object or callback
    | Plain(text: string)         // any other value, passed through untouched

  /** What the wrapper renders: the wrapped component's props and the ref it attaches. */
  datatype Element = Element(props: map<string, Prop>, ref: Prop)

  /** `props[key]`, `undefined` when absent. */
  function Get(props: map<string, Prop>, key: string): (v: Prop)
    ensures key !in props ==> v == Undefined
  {
    if key in props then props[key] else Undefined
  }

  /** The outer component: `<PrimpedComponent {...props} forwardedRef={ref} />`. */
  function Forward(props: map<string, Prop>, ref: Prop): (inner: map<string, Prop>)
    ensures inner.Keys == props.Keys + {"forwardedRef"}
    ensures inner["forwardedRef"] == ref
    ensures forall k :: k in props && k != "forwardedRef" ==> inner[k] == props[k]
  {
    props["forwardedRef" := ref]
  }

  /**
   * `PrimpedComponent`: `forwardedRef` is taken out of the props, the rest is
   * spread onto the wrapped component, `style` becomes `[selected, props.style]`
   * and the ref is `forwardedRef`.
   */
  function Primped(selected: Prop, props: map<string, Prop>): (e: Element)
    ensures e.props.Keys == props.Keys - {"forwardedRef"} + {"style"}
    ensures e.props["style"] == Array([selected, Get(props, "style")])
    ensures forall k :: k in props && k != "forwardedRef" && k != "style" ==> e.props[k] == props[k]
    ensures e.ref == Get(props, "forwardedRef")
  {
    var rest := props - {"forwardedRef"};
    Element(rest["style" := Array([selected, Get(rest, "style")])], Get(props, "forwardedRef"))
  }

  /** A render of the returned component: the selector applied to the provider's theme, then both layers. */
  function RenderWrapped(selector: Theme -> Prop, theme: Theme, props: map<string, Prop>, ref: Prop): Element
  {
    Primped(selector(theme), Forward(props, ref))
  }

  /** A template-literal hole: an undefined value is written out as `undefined`. */
  function Interpolate(v: Option<string>): string
  {
    if v.Some? then v.value else "undefined"
  }

  /**
   * `"Primped." + (displayName || name)`: an undefined or empty display name
   * falls back to the name, and an undefined name (a forward-ref object has
   * none) is written out as `undefined`.
   */
  function DisplayName(displayName: Option<string>, name: Option<string>): (r: string)
    ensures |r| >= 8 && r[..8] == "Primped."
    ensures displayName.Some? && displayName.value != "" ==> r[8..] == displayName.value
    ensures (displayName.None? || displayName.value == "") && name.Some? ==> r[8..] == name.value
    ensures (displayName.None? || displayName.value == "") && name.None? ==> r[8..] == "undefined"
  {
    "Primped." + Interpolate(if displayName.Some? && displayName.value != "" then displayName else name)
  }

  /**
   * `hoistNonReactStatics(target, source)`, abstractly: every static of the
   * source outside the library's reserved names is copied onto the target.
   * The reserved list itself belongs to the library and is a parameter here.
   */
  function Hoist(target: map<string, string>, source: map<string, string>, reserved: set<string>): (r: map<string, string>)
    ensures r.Keys == target.Keys + (source.Keys - reserved)
    ensures forall k :: k in source && k !in reserved ==> r[k] == source[k]
    ensures forall k :: k in target && (k !in source || k in reserved) ==> r[k] == target[k]
  {
    target + map k | k in source && k !in reserved :: source[k]
  }

  // ---------------------------------------------------------------------------
  // Components
  // ---------------------------------------------------------------------------

  /**
   * A component as the wrapper sees it: its `name` (undefined for a forward-ref
   * object), its `displayName` and its non-React statics.
   */
  class Component {
    const name: Option<string>
    var displayName: Option<string>
    var statics: map<string, string>

    constructor(name: Option<string>, displayName: Option<string>, statics: map<string, string>)
      ensures this.name == name && this.displayName == displayName && this.statics == statics
    {
      this.name := name;
      this.displayName := displayName;
      this.statics := statics;
    }
  }

  /**
   * What one `primmed` call builds: `PrimpedComponent` (`inner`), the
   * forward-ref component it returns (`outer`), the wrapped component and the
   * selector.
   */
  class Wrapper {
    const inner: Component
    const outer: Component
    const wrapped: Component
    const selector: Theme -> Prop

    constructor(inner: Component, outer: Component, wrapped: Component, selector: Theme -> Prop)
      ensures this.inner == inner && this.outer == outer && this.wrapped == wrapped && this.selector == selector
    {
      this.inner := inner;
      this.outer := outer;
      this.wrapped := wrapped;
      this.selector := selector;
    }

    /** One render under a provider whose theme is `theme`. */
    function Render(theme: Theme, props: map<string, Prop>, ref: Prop): (e: Element)
      ensures "style" in e.props && e.props["style"] == Array([selector(theme), Get(props, "style")])
      ensures e.ref == ref
    {
      RenderContract(selector, theme, props, ref);
      RenderWrapped(selector, theme, props, ref)
    }
  }

  /**
   * `primmed(Component, styles)`: builds `PrimpedComponent` and names it after
   * the wrapped component, wraps it in a forward-ref component, which gets
   * no name and no display name, and hoists the wrapped component's statics
   * onto that forward-ref component, which is what the call returns.
   */
  method Wrap(component: Component, selector: Theme -> Prop, reserved: set<string>) returns (w: Wrapper)
    ensures fresh(w) && fresh(w.inner) && fresh(w.outer)
    ensures w.wrapped == component && w.selector == selector
    ensures w.inner.name == Some("PrimpedComponent")
    ensures w.inner.displayName == Some(DisplayName(component.displayName, component.name))
    ensures w.outer.name == None && w.outer.displayName == None
    ensures w.outer.statics == Hoist(map[], component.statics, reserved)
  {
    var primped := new Component(Some("PrimpedComponent"), None, map[]);
    primped.displayName := Some(DisplayName(component.displayName, component.name));
    var forwardRef := new Component(None, None, map[]);
    forwardRef.statics := Hoist(forwardRef.statics, component.statics, reserved);
    w := new Wrapper(primped, forwardRef, component, selector);
  }

  /**
   * Wrapping what `primmed` returned: the forward-ref component has neither a
   * name nor a display name, and hoisting copies neither, so the second
   * `PrimpedComponent` is named `Primped.undefined` whatever the first
   * component was called; the statics hoisted the first time are all hoisted again.
   */
  method WrapTwice(component: Component, first: Theme -> Prop, second: Theme -> Prop, reserved: set<string>)
    returns (w1: Wrapper, w2: Wrapper)
    ensures w1.wrapped == component && w2.wrapped == w1.outer
    ensures w1.inner.displayName == Some(DisplayName(component.displayName, component.name))
    ensures w2.inner.displayName == Some("Primped.undefined")
    ensures w2.outer.statics == Hoist(map[], component.statics, reserved)
  {
    w1 := Wrap(component, first, reserved);
    w2 := Wrap(w1.outer, second, reserved);
    assert DisplayName(None, None) == "Primped.undefined" by {
      assert "Primped." + "undefined" == "Primped.undefined";
    }
    HoistTwice(component.statics, reserved);
  }

  // ---------------------------------------------------------------------------
  // Properties of a render
  // ---------------------------------------------------------------------------

  /**
   * A render passes the selected styles first and the caller's `style` second,
   * attaches the outer ref whatever `forwardedRef` prop the caller passed, and
   * hands every other prop through unchanged.
   */
  lemma RenderContract(selector: Theme -> Prop, theme: Theme, props: map<string, Prop>, ref: Prop)
    ensures var e := RenderWrapped(selector, theme, props, ref);
      && e.props.Keys == props.Keys - {"forwardedRef"} + {"style"}
      && e.props["style"] == Array([selector(theme), Get(props, "style")])
      && e.ref == ref
      && forall k :: k in props && k != "forwardedRef" && k != "style" ==> e.props[k] == props[k]
  {
    assert Get(Forward(props, ref), "style") == Get(props, "style");
  }

  /**
   * Wrapping a wrapped component: the inner wrapper's selection comes first,
   * and the outer wrapper's selection sits before the caller's style inside
   * the second slot; the ref still reaches the innermost component.
   */
  lemma NestedWrappers(outer: Theme -> Prop, inner: Theme -> Prop, theme: Theme, props: map<string, Prop>, ref: Prop)
    ensures var mid := RenderWrapped(outer, theme, props, ref);
      var e := RenderWrapped(inner, theme, mid.props, mid.ref);
      && e.props["style"] == Array([inner(theme), Array([outer(theme), Get(props, "style")])])
      && e.ref == ref
  {
    RenderContract(outer, theme, props, ref);
    var mid := RenderWrapped(outer, theme, props, ref);
    RenderContract(inner, theme, mid.props, mid.ref);
  }

  /** Hoisting onto an empty target, twice in a row, hoists what the first pass did. */
  lemma HoistTwice(source: map<string, string>, reserved: set<string>)
    ensures Hoist(map[], Hoist(map[], source, reserved), reserved) == Hoist(map[], source, reserved)
  {
  }

  /** Hoisting the same statics again changes nothing. */
  lemma HoistIdempotent(target: map<string, string>, source: map<string, string>, reserved: set<string>)
    ensures Hoist(Hoist(target, source, reserved), source, reserved) == Hoist(target, source, reserved)
  {
  }
}
