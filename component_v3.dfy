/**
 * The node-plus-controller draft of `src/component_v3.rs`.
 *
 * A `Component` node owns a controller, a sizing and its child nodes, and
 * caches the size and rect of its last layout pass. `measure` resolves the
 * offered space with the node's sizing, asks the controller for the content
 * size, resolves that again and caches it; `arrange` caches and returns what
 * the controller placed. `ContentLayout` forwards both to the node's one
 * child; the draft's `Button` and `MyButton` controllers forward to
 * `ContentLayout` and `Button` in turn.
 *
 * The structure of a node (controller, sizing, children) is fixed once built,
 * so those are `const`; only the two caches change. The pure functions
 * `Requested` and `Placed` say what a layout pass computes, and the methods
 * are proved to return those values and to leave them in the caches.
 */
module NodeTree {
  import opened Geometry
  import opened Components

  /**
   * The controllers of the draft. `Leaf` stands for a controller of the
   * application's own, whose `measure` and `arrange` are given as functions
   * of their argument.
   */
  datatype Controller =
    | ContentLayout
    | Button
    | MyButton
    | Leaf(measure: Size -> Size, arrange: Rect -> Rect)

  /** How many forwarding steps separate a controller from the layout that does the work. */
  function Indirection(c: Controller): nat
  {
    match c
    case MyButton => 2
    case Button => 1
    case _ => 0
  }

  /** The controllers whose layout is `ContentLayout`'s. */
  predicate ForwardsToContent(c: Controller) { !c.Leaf? }

  /** `ComponentBuilder`: a sizing and the children the node will own. */
  datatype ComponentBuilder = ComponentBuilder(sizing: Sizing, children: seq<Component>)

  /** `Component::builder()`: the inherent `Sizing::default()` (fit) and no children. */
  function NewComponentBuilder(): (b: ComponentBuilder)
    ensures b.sizing == SizingFit() && b.children == []
  {
    ComponentBuilder(SizingDefault(), [])
  }

  function WithSizing(b: ComponentBuilder, s: Sizing): (r: ComponentBuilder)
    ensures r.sizing == s && r.children == b.children
  {
    b.(sizing := s)
  }

  function WithChildren(b: ComponentBuilder, cs: seq<Component>): (r: ComponentBuilder)
    ensures r.children == cs && r.sizing == b.sizing
  {
    b.(children := cs)
  }

  /** The draft's `ButtonBuilder`, a wrapper around a component builder. */
  datatype NodeButtonBuilder = NodeButtonBuilder(component: ComponentBuilder)

  /** `Button::builder()`. */
  function NewButtonBuilder(): (b: NodeButtonBuilder)
    ensures b.component == NewComponentBuilder()
  {
    NodeButtonBuilder(NewComponentBuilder())
  }

  function ButtonWithSizing(b: NodeButtonBuilder, s: Sizing): (r: NodeButtonBuilder)
    ensures r.component.sizing == s && r.component.children == b.component.children
  {
    NodeButtonBuilder(WithSizing(b.component, s))
  }

  /** `with_content`: the content becomes the one and only child. */
  function ButtonWithContent(b: NodeButtonBuilder, content: Component): (r: NodeButtonBuilder)
    ensures r.component.children == [content] && r.component.sizing == b.component.sizing
  {
    NodeButtonBuilder(WithChildren(b.component, [content]))
  }

  /** The tallest of the children's heights, 0 for none. */
  ghost function MaxHeight(cs: seq<Component>): (h: nat)
    ensures forall i :: 0 <= i < |cs| ==> cs[i].height <= h
  {
    if cs == [] then 0
    else
      var rest := MaxHeight(cs[1..]);
      assert forall i :: 1 <= i < |cs| ==> cs[i] == cs[1..][i - 1];
      if cs[0].height >= rest then cs[0].height else rest
  }

  /** The union of the children's footprints. */
  ghost function ReprOf(cs: seq<Component>): (s: set<object>)
    ensures forall i :: 0 <= i < |cs| ==> cs[i] in s && cs[i].Repr <= s
  {
    if cs == [] then {}
    else
      assert forall i :: 1 <= i < |cs| ==> cs[i] == cs[1..][i - 1];
      {cs[0]} + cs[0].Repr + ReprOf(cs[1..])
  }

  class Component {
    const controller: Controller
    const sizing: Sizing
    const children: seq<Component>
    /** The nodes of this subtree, this one included. */
    ghost const Repr: set<object>
    /** One more than the tallest child subtree; it bounds every recursion over the tree. */
    ghost const height: nat
    var finalSize: Size
    var finalRect: Rect

    /** Each child is a well-formed subtree below this node that does not contain it. */
    ghost predicate Valid()
      decreases height
    {
      this in Repr &&
      forall i :: 0 <= i < |children| ==>
        children[i] in Repr && children[i].Repr <= Repr && this !in children[i].Repr &&
        children[i].height < height && children[i].Valid()
    }

    /**
     * Every forwarding controller on the way down has exactly the one child
     * that `ContentLayout` asserts and unwraps.
     */
    ghost predicate Measurable()
      requires Valid()
      decreases height
    {
      ForwardsToContent(controller) ==> |children| == 1 && children[0].Measurable()
    }

    /**
     * The nodes a layout pass writes to: this one and, when its controller
     * forwards to `ContentLayout`, the chain below its one child. Nothing
     * else in the subtree is touched.
     */
    ghost function Chain(): (s: set<object>)
      requires Valid() && Measurable()
      ensures this in s && s <= Repr
      decreases height
    {
      if ForwardsToContent(controller) then {this} + children[0].Chain() else {this}
    }

    /** `ComponentBuilder::build`: the node owns the builder's children and caches nothing yet. */
    constructor Build(b: ComponentBuilder, c: Controller)
      requires forall i :: 0 <= i < |b.children| ==> b.children[i].Valid()
      ensures Valid()
      ensures controller == c && sizing == b.sizing && children == b.children
      ensures finalSize == SizeZero() && finalRect == RectDefault()
    {
      controller := c;
      sizing := b.sizing;
      children := b.children;
      Repr := {this} + ReprOf(b.children);
      height := MaxHeight(b.children) + 1;
      finalSize := SizeZero();
      finalRect := RectDefault();
    }

    /** What `controller` answers to `measure` when offered `available`. */
    function LayoutMeasure(c: Controller, available: Size): Size
      requires Valid() && Measurable() && ForwardsToContent(c) == ForwardsToContent(controller)
      decreases height, Indirection(c)
    {
      match c
      case ContentLayout => children[0].Requested(available)
      case Button => LayoutMeasure(ContentLayout, available)
      case MyButton => LayoutMeasure(Button, available)
      case Leaf(m, _) => m(available)
    }

    /** The size `measure(available)` returns. */
    function Requested(available: Size): Size
      requires Valid() && Measurable()
      decreases height, 3
    {
      var inner := CalcAvailableSize(sizing, available);
      CalcFinalSize(sizing, inner, LayoutMeasure(controller, inner))
    }

    /** What `controller` answers to `arrange(requested)`. */
    function LayoutArrange(c: Controller, requested: Rect): Rect
      requires Valid() && Measurable() && ForwardsToContent(c) == ForwardsToContent(controller)
      decreases height, Indirection(c)
    {
      match c
      case ContentLayout => children[0].Placed(requested)
      case Button => LayoutArrange(ContentLayout, requested)
      case MyButton => LayoutArrange(Button, requested)
      case Leaf(_, a) => a(requested)
    }

    /** The rect `arrange(requested)` returns. */
    function Placed(requested: Rect): Rect
      requires Valid() && Measurable()
      decreases height, 3
    {
      LayoutArrange(controller, requested)
    }

    /**
     * After `measure(available)`: this node caches what it returned, and down
     * a forwarding chain the content caches what it returned for the space
     * this node offered it.
     */
    ghost predicate CachedMeasure(available: Size)
      requires Valid() && Measurable()
      reads Repr
      decreases height
    {
      finalSize == Requested(available) &&
      (ForwardsToContent(controller) ==>
        children[0].CachedMeasure(CalcAvailableSize(sizing, available)))
    }

    /** After `arrange(requested)`: every node down a forwarding chain caches the rect it returned. */
    ghost predicate CachedArrange(requested: Rect)
      requires Valid() && Measurable()
      reads Repr
      decreases height
    {
      finalRect == Placed(requested) &&
      (ForwardsToContent(controller) ==> children[0].CachedArrange(requested))
    }

    /** `Component::measure`. */
    method Measure(available: Size) returns (r: Size)
      requires Valid() && Measurable()
      modifies Chain()
      ensures r == Requested(available)
      ensures CachedMeasure(available)
      ensures forall n: Component :: n in Repr ==> n.finalRect == old(n.finalRect)
      decreases height, 3
    {
      var inner := CalcAvailableSize(sizing, available);
      var required := ControllerMeasure(controller, inner);
      r := CalcFinalSize(sizing, inner, required);
      finalSize := r;
    }

    /** The controller's `measure`, which measures the content for forwarding controllers. */
    method ControllerMeasure(c: Controller, available: Size) returns (required: Size)
      requires Valid() && Measurable() && ForwardsToContent(c) == ForwardsToContent(controller)
      modifies Chain() - {this}
      ensures required == LayoutMeasure(c, available)
      ensures ForwardsToContent(controller) ==> children[0].CachedMeasure(available)
      ensures forall n: Component :: n in Repr ==> n.finalRect == old(n.finalRect)
      decreases height, Indirection(c)
    {
      match c
      case ContentLayout =>
        required := children[0].Measure(available);
      case Button =>
        required := ControllerMeasure(ContentLayout, available);
      case MyButton =>
        required := ControllerMeasure(Button, available);
      case Leaf(m, _) =>
        required := m(available);
    }

    /** `Component::arrange`. */
    method Arrange(requested: Rect) returns (r: Rect)
      requires Valid() && Measurable()
      modifies Chain()
      ensures r == Placed(requested)
      ensures CachedArrange(requested)
      ensures forall n: Component :: n in Repr ==> n.finalSize == old(n.finalSize)
      decreases height, 3
    {
      r := ControllerArrange(controller, requested);
      finalRect := r;
    }

    /** The controller's `arrange`, which arranges the content for forwarding controllers. */
    method ControllerArrange(c: Controller, requested: Rect) returns (placed: Rect)
      requires Valid() && Measurable() && ForwardsToContent(c) == ForwardsToContent(controller)
      modifies Chain() - {this}
      ensures placed == LayoutArrange(c, requested)
      ensures ForwardsToContent(controller) ==> children[0].CachedArrange(requested)
      ensures forall n: Component :: n in Repr ==> n.finalSize == old(n.finalSize)
      decreases height, Indirection(c)
    {
      match c
      case ContentLayout =>
        placed := children[0].Arrange(requested);
      case Button =>
        placed := ControllerArrange(ContentLayout, requested);
      case MyButton =>
        placed := ControllerArrange(Button, requested);
      case Leaf(_, a) =>
        placed := a(requested);
    }
  }

  /** `ButtonBuilder::build_component`: a node with the `Button` controller. */
  method BuildButton(b: NodeButtonBuilder) returns (n: Component)
    requires forall i :: 0 <= i < |b.component.children| ==> b.component.children[i].Valid()
    ensures fresh(n) && n.Valid()
    ensures n.controller == Button && n.sizing == b.component.sizing && n.children == b.component.children
    ensures n.finalSize == SizeZero() && n.finalRect == RectDefault()
  {
    n := new Component.Build(b.component, Button);
  }

  // ---------------------------------------------------------------------------
  // Properties of the layout pass
  // ---------------------------------------------------------------------------

  /**
   * The three forwarding controllers lay a node out identically: a `Button`
   * or `MyButton` node measures and arranges exactly as `ContentLayout` would.
   */
  lemma ForwardingControllersAgree(n: Component, available: Size, requested: Rect)
    requires n.Valid() && n.Measurable() && ForwardsToContent(n.controller)
    ensures n.LayoutMeasure(MyButton, available) == n.LayoutMeasure(Button, available)
                                                 == n.LayoutMeasure(ContentLayout, available)
    ensures n.LayoutArrange(MyButton, requested) == n.LayoutArrange(Button, requested)
                                                 == n.LayoutArrange(ContentLayout, requested)
  {
  }

  /**
   * A forwarding node reports its content's size, measured against the space
   * the node's own sizing offers and resolved again by that sizing; it places
   * itself exactly where its content is placed.
   */
  lemma ForwardingNodeWrapsContent(n: Component, available: Size, requested: Rect)
    requires n.Valid() && n.Measurable() && ForwardsToContent(n.controller)
    ensures n.Requested(available) ==
      CalcFinalSize(n.sizing, CalcAvailableSize(n.sizing, available),
                    n.children[0].Requested(CalcAvailableSize(n.sizing, available)))
    ensures n.Placed(requested) == n.children[0].Placed(requested)
  {
    ForwardingControllersAgree(n, CalcAvailableSize(n.sizing, available), requested);
  }

  /**
   * Down a chain of forwarding nodes the rect is handed on unchanged, so the
   * whole chain is placed where the innermost application controller places it.
   */
  lemma {:induction false} ChainPlacedByInnermost(n: Component, requested: Rect)
    requires n.Valid() && n.Measurable()
    ensures n.Placed(requested) == Innermost(n).controller.arrange(requested)
    decreases n.height
  {
    if ForwardsToContent(n.controller) {
      ForwardingNodeWrapsContent(n, SizeZero(), requested);
      ChainPlacedByInnermost(n.children[0], requested);
    }
  }

  /** The first node down a forwarding chain whose controller is the application's own. */
  function Innermost(n: Component): (m: Component)
    requires n.Valid() && n.Measurable()
    ensures m.Valid() && m.Measurable() && m.controller.Leaf?
    decreases n.height
  {
    if ForwardsToContent(n.controller) then Innermost(n.children[0]) else n
  }

  /** A button with a fixed sizing reports that size, whatever its content measures. */
  lemma FixedButtonIgnoresContent(n: Component, sz: Size, available: Size)
    requires n.Valid() && n.Measurable() && n.sizing == SizingFixed(sz)
    ensures n.Requested(available) == sz
  {
    SizingFixedResolves(sz, available, n.LayoutMeasure(n.controller, CalcAvailableSize(n.sizing, available)));
  }
}
