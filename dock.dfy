/**
 * The five-slot dock of `src/layouts/dock.rs`.
 *
 * `measure` offers the slots, in the fixed order top, bottom, left, right,
 * center, whatever the earlier ones left of the clamped available space; top
 * and bottom take height, left and right take width, and the center gets the
 * rest. `arrange` places the slots around the frame by closed-form rectangle
 * arithmetic from their cached sizes. Input goes to the dock's own preview
 * handler, then to center, top, left, right and bottom, then to its own
 * bubble handler, stopping at the first that claims the event; a cursor
 * move outside the arranged rect reaches nobody.
 */
module DockLayout {
  import opened Wrappers
  import opened Geometry
  import opened Input
  import opened Components

  // ---------------------------------------------------------------------------
  // Measuring
  // ---------------------------------------------------------------------------

  /** The sizes of the five slots; an absent slot has size zero. */
  datatype DockSizes = DockSizes(top: Size, bottom: Size, left: Size, right: Size, center: Size)

  /** `slot.map(|c| c.component.measure(remaining)).unwrap_or_default()`. */
  function SlotSize(slot: Option<DynComponent>, remaining: Size): (s: Size)
    ensures slot.None? ==> s == SizeZero()
    ensures slot.Some? ==> s == Measured(slot.value, remaining)
  {
    match slot
    case None => SizeZero()
    case Some(c) => Measured(c, remaining)
  }

  /**
   * What each slot reports when measured in order against the space the
   * earlier slots left of `available`, stated in closed form.
   */
  function MeasureSlots(top: Option<DynComponent>, bottom: Option<DynComponent>, left: Option<DynComponent>,
                        right: Option<DynComponent>, center: Option<DynComponent>, available: Size): (z: DockSizes)
    ensures z.top == SlotSize(top, available)
    ensures z.bottom == SlotSize(bottom, Size(available.width, available.height - z.top.height))
    ensures z.left == SlotSize(left, Size(available.width, available.height - z.top.height - z.bottom.height))
    ensures z.right == SlotSize(right, Size(available.width - z.left.width,
                                            available.height - z.top.height - z.bottom.height))
    ensures z.center == SlotSize(center, Size(available.width - z.left.width - z.right.width,
                                              available.height - z.top.height - z.bottom.height))
  {
    var t := SlotSize(top, available);
    var afterTop := Size(available.width, available.height - t.height);
    var b := SlotSize(bottom, afterTop);
    var afterBottom := Size(afterTop.width, afterTop.height - b.height);
    var l := SlotSize(left, afterBottom);
    var afterLeft := Size(afterBottom.width - l.width, afterBottom.height);
    var r := SlotSize(right, afterLeft);
    var afterRight := Size(afterLeft.width - r.width, afterLeft.height);
    DockSizes(t, b, l, r, SlotSize(center, afterRight))
  }

  /** Measuring the slots one after another, as `Dock::measure` does, gives `MeasureSlots`. */
  lemma MeasureSlotsInOrder(top: Option<DynComponent>, bottom: Option<DynComponent>, left: Option<DynComponent>,
                            right: Option<DynComponent>, center: Option<DynComponent>, available: Size,
                            t: Size, b: Size, l: Size, r: Size, c: Size)
    requires t == SlotSize(top, available)
    requires b == SlotSize(bottom, Size(available.width, available.height - t.height))
    requires l == SlotSize(left, Size(available.width, available.height - t.height - b.height))
    requires r == SlotSize(right, Size(available.width - l.width, available.height - t.height - b.height))
    requires c == SlotSize(center, Size(available.width - l.width - r.width,
                                        available.height - t.height - b.height))
    ensures MeasureSlots(top, bottom, left, right, center, available) == DockSizes(t, b, l, r, c)
  {
  }

  /** `[a, b, c].iter().cloned().reduce(f32::max).unwrap()`. */
  function Max3(a: real, b: real, c: real): real
  {
    var ab := if a >= b then a else b;
    if ab >= c then ab else c
  }

  /** The fold is the maximum of the three: at least each, and one of them. */
  lemma Max3IsMax(a: real, b: real, c: real)
    ensures Max3(a, b, c) >= a && Max3(a, b, c) >= b && Max3(a, b, c) >= c
    ensures Max3(a, b, c) == a || Max3(a, b, c) == b || Max3(a, b, c) == c
  {
  }

  /**
   * The space the slots need: `Dock::measure` takes the widest of top,
   * bottom and the middle band (left, center and right side by side), and
   * the tallest of left, right and the stack top, center, bottom.
   */
  function Required(z: DockSizes): Size
  {
    Size(Max3(z.top.width, z.bottom.width, z.left.width + z.center.width + z.right.width),
         Max3(z.left.height, z.right.height, z.top.height + z.center.height + z.bottom.height))
  }

  /**
   * The required width is the least that holds top, bottom and the middle
   * band side by side, and the required height the least that holds left,
   * right and the stack of top, center and bottom.
   */
  lemma RequiredIsTightBound(z: DockSizes)
    ensures var r := Required(z);
            r.width >= z.top.width && r.width >= z.bottom.width &&
            r.width >= z.left.width + z.center.width + z.right.width &&
            (r.width == z.top.width || r.width == z.bottom.width ||
             r.width == z.left.width + z.center.width + z.right.width)
    ensures var r := Required(z);
            r.height >= z.left.height && r.height >= z.right.height &&
            r.height >= z.top.height + z.center.height + z.bottom.height &&
            (r.height == z.left.height || r.height == z.right.height ||
             r.height == z.top.height + z.center.height + z.bottom.height)
  {
    Max3IsMax(z.top.width, z.bottom.width, z.left.width + z.center.width + z.right.width);
    Max3IsMax(z.left.height, z.right.height, z.top.height + z.center.height + z.bottom.height);
  }

  /** An absent top slot leaves the whole available space to the bottom slot. */
  lemma AbsentTopGivesBottomAll(bottom: Option<DynComponent>, left: Option<DynComponent>,
                                right: Option<DynComponent>, center: Option<DynComponent>, available: Size)
    ensures MeasureSlots(None, bottom, left, right, center, available).top == SizeZero()
    ensures MeasureSlots(None, bottom, left, right, center, available).bottom == SlotSize(bottom, available)
  {
  }

  /**
   * A dock with only a center slot offers it the whole space and, when the
   * center reports a non-negative size, needs exactly that size.
   */
  lemma CenterAlone(c: DynComponent, available: Size)
    requires NonNegative(Measured(c, available))
    ensures MeasureSlots(None, None, None, None, Some(c), available).center == Measured(c, available)
    ensures Required(MeasureSlots(None, None, None, None, Some(c), available)) == Measured(c, available)
  {
    var z := MeasureSlots(None, None, None, None, Some(c), available);
    assert Size(available.width - 0.0 - 0.0, available.height - 0.0 - 0.0) == available;
    assert z.center == Measured(c, available);
  }

  // ---------------------------------------------------------------------------
  // Arranging
  // ---------------------------------------------------------------------------

  /** The rects the five slots are arranged in. */
  datatype DockRects = DockRects(top: Rect, bottom: Rect, left: Rect, right: Rect, center: Rect)

  /** The placement `arrange` computes from the frame and the cached slot sizes. */
  function Placements(frame: Rect, z: DockSizes): DockRects
  {
    var x := frame.pos.x;
    var y := frame.pos.y;
    var w := frame.size.width;
    var h := frame.size.height;
    var bandHeight := h - z.top.height - z.bottom.height;
    DockRects(
      Rect(frame.pos, Size(w, z.top.height)),
      Rect(Point(x, y + h - z.bottom.height), Size(w, z.bottom.height)),
      Rect(Point(x, y + z.top.height), Size(z.left.width, bandHeight)),
      Rect(Point(x + w - z.right.width, y + z.top.height), Size(z.right.width, bandHeight)),
      Rect(Point(x + z.left.width, y + z.top.height), Size(w - z.left.width - z.right.width, bandHeight)))
  }

  /**
   * Top and bottom span the frame's width at its top and bottom edges, at
   * their cached heights.
   */
  lemma TopAndBottomSpan(frame: Rect, z: DockSizes)
    ensures Placements(frame, z).top.pos == frame.pos
    ensures Placements(frame, z).top.size == Size(frame.size.width, z.top.height)
    ensures Placements(frame, z).bottom.pos.x == frame.pos.x
    ensures Placements(frame, z).bottom.size == Size(frame.size.width, z.bottom.height)
    ensures Placements(frame, z).bottom.pos.y + Placements(frame, z).bottom.size.height
            == frame.pos.y + frame.size.height
  {
  }

  /**
   * The middle band runs from the bottom of the top slot to the top of the
   * bottom slot; left, center and right tile it from the frame's left edge
   * to its right edge.
   */
  lemma MiddleBandTiles(frame: Rect, z: DockSizes)
    ensures var p := Placements(frame, z);
            p.left.pos.y == p.center.pos.y == p.right.pos.y == p.top.pos.y + p.top.size.height &&
            p.left.pos.y + p.left.size.height == p.bottom.pos.y &&
            p.left.size.height == p.center.size.height == p.right.size.height &&
            p.left.pos.x == frame.pos.x &&
            p.center.pos.x == p.left.pos.x + p.left.size.width &&
            p.right.pos.x == p.center.pos.x + p.center.size.width &&
            p.right.pos.x + p.right.size.width == frame.pos.x + frame.size.width
  {
  }

  /**
   * When top and bottom fit the height and left and right fit the width,
   * every slot's rect lies inside the frame.
   */
  lemma PlacementsInsideFrame(frame: Rect, z: DockSizes)
    requires NonNegative(z.top) && NonNegative(z.bottom) && NonNegative(z.left) && NonNegative(z.right)
    requires z.top.height + z.bottom.height <= frame.size.height
    requires z.left.width + z.right.width <= frame.size.width
    ensures var p := Placements(frame, z);
            Inside(p.top, frame) && Inside(p.bottom, frame) && Inside(p.left, frame) &&
            Inside(p.right, frame) && Inside(p.center, frame)
  {
  }

  /** `inner` has non-negative size and both of its corners lie in `outer`. */
  predicate Inside(inner: Rect, outer: Rect)
  {
    NonNegative(inner.size) &&
    Contains(outer, inner.pos) && Contains(outer, PointOffset(inner.pos, inner.size))
  }

  /**
   * With the other cached sizes unchanged, dropping the right slot leaves
   * top, bottom and left where they were and widens the center by exactly
   * the right slot's width.
   */
  lemma RemovingRightWidensCenter(frame: Rect, z: DockSizes)
    ensures var with := Placements(frame, z);
            var without := Placements(frame, z.(right := SizeZero()));
            without.top == with.top && without.bottom == with.bottom && without.left == with.left &&
            without.center.pos == with.center.pos &&
            without.center.size.height == with.center.size.height &&
            without.center.size.width == with.center.size.width + z.right.width
  {
  }

  // ---------------------------------------------------------------------------
  // Dispatching
  // ---------------------------------------------------------------------------

  datatype SlotName = TopSlot | BottomSlot | LeftSlot | RightSlot | CenterSlot

  /** A step of the dock's dispatch: its own handlers, or a child slot's `dispatch_*`. */
  datatype DockStep = OwnPreview | ChildDispatch(slot: SlotName) | OwnBubble

  /** `slot.map_or(false, |c| c.component.dispatch_*(event))`: an absent slot does not run. */
  function SlotDispatch(slot: Option<DynComponent>, name: SlotName, e: Event): (d: Dispatched<DockStep>)
    ensures slot.None? ==> d == Skipped()
    ensures slot.Some? ==> d == Invoke(ChildDispatch(name), slot.value.dispatch(e))
  {
    match slot
    case None => Skipped()
    case Some(c) => Invoke(ChildDispatch(name), c.dispatch(e))
  }

  /** The chain `own preview || center || top || left || right || bottom || own bubble`. */
  function DispatchChain(own: Handlers, top: Option<DynComponent>, bottom: Option<DynComponent>,
                         left: Option<DynComponent>, right: Option<DynComponent>,
                         center: Option<DynComponent>, e: Event): seq<Dispatched<DockStep>>
  {
    [Invoke(OwnPreview, own.preview(e)),
     SlotDispatch(center, CenterSlot, e),
     SlotDispatch(top, TopSlot, e),
     SlotDispatch(left, LeftSlot, e),
     SlotDispatch(right, RightSlot, e),
     SlotDispatch(bottom, BottomSlot, e),
     Invoke(OwnBubble, own.bubble(e))]
  }

  /** The `dispatch_*` methods: a cursor move outside `finalRect` runs nothing and is not claimed. */
  function DockDispatch(own: Handlers, top: Option<DynComponent>, bottom: Option<DynComponent>,
                        left: Option<DynComponent>, right: Option<DynComponent>,
                        center: Option<DynComponent>, finalRect: Rect, e: Event): (d: Dispatched<DockStep>)
    ensures e.CursorMovedInput? && !Contains(finalRect, e.cursorEvent.pos) ==> d == Skipped()
  {
    if e.CursorMovedInput? && !Contains(finalRect, e.cursorEvent.pos) then Skipped()
    else ThenAll(DispatchChain(own, top, bottom, left, right, center, e))
  }

  /** A present slot that claims the event. */
  predicate SlotClaims(slot: Option<DynComponent>, e: Event)
  {
    slot.Some? && slot.value.dispatch(e)
  }

  /**
   * With the dock's own default handlers, an event that passes the gate is
   * claimed exactly when some present slot claims it.
   */
  lemma {:induction false} ClaimedIffSomeSlotClaims(top: Option<DynComponent>, bottom: Option<DynComponent>,
                                                    left: Option<DynComponent>, right: Option<DynComponent>,
                                                    center: Option<DynComponent>, finalRect: Rect, e: Event)
    requires !e.CursorMovedInput? || Contains(finalRect, e.cursorEvent.pos)
    ensures DockDispatch(DefaultHandlers(), top, bottom, left, right, center, finalRect, e).claimed <==>
            SlotClaims(center, e) || SlotClaims(top, e) || SlotClaims(left, e) ||
            SlotClaims(right, e) || SlotClaims(bottom, e)
  {
    var steps := DispatchChain(DefaultHandlers(), top, bottom, left, right, center, e);
    ThenAllClaimed(steps);
    assert |steps| == 7;
    assert !steps[0].claimed && !steps[6].claimed;
    assert steps[1].claimed == SlotClaims(center, e);
    assert steps[2].claimed == SlotClaims(top, e);
    assert steps[3].claimed == SlotClaims(left, e);
    assert steps[4].claimed == SlotClaims(right, e);
    assert steps[5].claimed == SlotClaims(bottom, e);
  }

  /** A chain claims the event exactly when one of its steps does. */
  lemma {:induction false} ThenAllClaimed<S>(steps: seq<Dispatched<S>>)
    ensures ThenAll(steps).claimed <==> exists j :: 0 <= j < |steps| && steps[j].claimed
  {
    if steps != [] {
      ThenAllClaimed(steps[1..]);
      assert forall j :: 1 <= j < |steps| ==> steps[1..][j - 1] == steps[j];
    }
  }

  /**
   * When the center slot claims an event that passes the gate, the dock's
   * preview and then the center have run, and nothing else: top, left,
   * right, bottom and the dock's bubble handler are never called.
   */
  lemma CenterClaimStopsChain(top: Option<DynComponent>, bottom: Option<DynComponent>,
                              left: Option<DynComponent>, right: Option<DynComponent>,
                              c: DynComponent, finalRect: Rect, e: Event)
    requires !e.CursorMovedInput? || Contains(finalRect, e.cursorEvent.pos)
    requires c.dispatch(e)
    ensures DockDispatch(DefaultHandlers(), top, bottom, left, right, Some(c), finalRect, e) ==
            Dispatched(true, [OwnPreview, ChildDispatch(CenterSlot)])
  {
    var steps := DispatchChain(DefaultHandlers(), top, bottom, left, right, Some(c), e);
    assert steps[..1] == [steps[0]];
    assert FirstClaim(steps, 1);
    ThenAllStopsAtFirstClaim(steps, 1);
    assert steps[..2] == [steps[0], steps[1]];
    assert steps[..2][1..] == [steps[1]];
    assert steps[..2][1..][1..] == [];
  }

  /**
   * When no slot claims the event, every present slot runs in the order
   * center, top, left, right, bottom, between the dock's own two handlers.
   */
  lemma NoClaimRunsAllPresent(top: DynComponent, bottom: DynComponent, left: DynComponent,
                              right: DynComponent, center: DynComponent, finalRect: Rect, e: Event)
    requires !e.CursorMovedInput? || Contains(finalRect, e.cursorEvent.pos)
    requires !top.dispatch(e) && !bottom.dispatch(e) && !left.dispatch(e) && !right.dispatch(e)
    requires !center.dispatch(e)
    ensures DockDispatch(DefaultHandlers(), Some(top), Some(bottom), Some(left), Some(right), Some(center),
                         finalRect, e) ==
            Dispatched(false, [OwnPreview, ChildDispatch(CenterSlot), ChildDispatch(TopSlot),
                               ChildDispatch(LeftSlot), ChildDispatch(RightSlot), ChildDispatch(BottomSlot),
                               OwnBubble])
  {
    var steps := DispatchChain(DefaultHandlers(), Some(top), Some(bottom), Some(left), Some(right), Some(center), e);
    ThenAllNoClaim(steps);
    FlattenSingles(steps);
  }

  /** Flattening seven single-step outcomes lists their steps in order. */
  lemma FlattenSingles<S>(steps: seq<Dispatched<S>>)
    requires |steps| == 7 && forall j :: 0 <= j < 7 ==> |steps[j].invoked| == 1
    ensures Flatten(steps) == seq(7, j requires 0 <= j < 7 => steps[j].invoked[0])
  {
    var tail := steps[1..];
    assert steps[1..][1..] == steps[2..];
    assert steps[2..][1..] == steps[3..];
    assert steps[3..][1..] == steps[4..];
    assert steps[4..][1..] == steps[5..];
    assert steps[5..][1..] == steps[6..];
    assert steps[6..][1..] == [];
    assert Flatten(steps[6..]) == steps[6].invoked;
    assert Flatten(steps[5..]) == steps[5].invoked + steps[6].invoked;
    assert Flatten(steps[4..]) == steps[4].invoked + steps[5].invoked + steps[6].invoked;
    assert Flatten(steps[3..]) == steps[3].invoked + steps[4].invoked + steps[5].invoked + steps[6].invoked;
    assert Flatten(steps[2..]) == steps[2].invoked + steps[3].invoked + steps[4].invoked + steps[5].invoked
                                  + steps[6].invoked;
    assert Flatten(tail) == steps[1].invoked + steps[2].invoked + steps[3].invoked + steps[4].invoked
                            + steps[5].invoked + steps[6].invoked;
  }

  // ---------------------------------------------------------------------------
  // Builder
  // ---------------------------------------------------------------------------

  datatype DockBuilder = DockBuilder(
    sizing: Sizing,
    center: Option<DynComponent>,
    top: Option<DynComponent>,
    bottom: Option<DynComponent>,
    left: Option<DynComponent>,
    right: Option<DynComponent>)

  /** `Dock::builder()`, the derived `Default`: `Fill` on both axes and no slots. */
  function NewDockBuilder(): (b: DockBuilder)
    ensures b.sizing == SizingFill()
    ensures b.center.None? && b.top.None? && b.bottom.None? && b.left.None? && b.right.None?
  {
    DockBuilder(SizingTraitDefault(), None, None, None, None, None)
  }

  function WithSizing(b: DockBuilder, sizing: Sizing): (r: DockBuilder)
    ensures r.sizing == sizing
    ensures r.center == b.center && r.top == b.top && r.bottom == b.bottom
    ensures r.left == b.left && r.right == b.right
  {
    b.(sizing := sizing)
  }

  function WithCenter(b: DockBuilder, c: DynComponent): (r: DockBuilder)
    ensures r.center == Some(c) && r.sizing == b.sizing
    ensures r.top == b.top && r.bottom == b.bottom && r.left == b.left && r.right == b.right
  {
    b.(center := Some(c))
  }

  function WithTop(b: DockBuilder, c: DynComponent): (r: DockBuilder)
    ensures r.top == Some(c) && r.sizing == b.sizing
    ensures r.center == b.center && r.bottom == b.bottom && r.left == b.left && r.right == b.right
  {
    b.(top := Some(c))
  }

  function WithBottom(b: DockBuilder, c: DynComponent): (r: DockBuilder)
    ensures r.bottom == Some(c) && r.sizing == b.sizing
    ensures r.center == b.center && r.top == b.top && r.left == b.left && r.right == b.right
  {
    b.(bottom := Some(c))
  }

  function WithLeft(b: DockBuilder, c: DynComponent): (r: DockBuilder)
    ensures r.left == Some(c) && r.sizing == b.sizing
    ensures r.center == b.center && r.top == b.top && r.bottom == b.bottom && r.right == b.right
  {
    b.(left := Some(c))
  }

  function WithRight(b: DockBuilder, c: DynComponent): (r: DockBuilder)
    ensures r.right == Some(c) && r.sizing == b.sizing
    ensures r.center == b.center && r.top == b.top && r.bottom == b.bottom && r.left == b.left
  {
    b.(right := Some(c))
  }

  // ---------------------------------------------------------------------------
  // The dock
  // ---------------------------------------------------------------------------

  /**
   * The dock. Each slot's `Option<DockChild>` is held as two parallel
   * fields: the component, which no operation replaces, and its cached
   * `final_size`, zero for an absent slot and zero until first measured.
   */
  class Dock {
    const sizing: Sizing
    const center: Option<DynComponent>
    const top: Option<DynComponent>
    const bottom: Option<DynComponent>
    const left: Option<DynComponent>
    const right: Option<DynComponent>
    var centerSize: Size
    var topSize: Size
    var bottomSize: Size
    var leftSize: Size
    var rightSize: Size
    var finalSize: Size
    var finalRect: Rect

    /** `DockBuilder::build`: every slot is fresh, with size zero. */
    constructor Build(b: DockBuilder)
      ensures sizing == b.sizing
      ensures center == b.center && top == b.top && bottom == b.bottom && left == b.left && right == b.right
      ensures CachedSizes() == DockSizes(SizeZero(), SizeZero(), SizeZero(), SizeZero(), SizeZero())
      ensures finalSize == SizeZero() && finalRect == RectDefault()
    {
      sizing := b.sizing;
      center, top, bottom, left, right := b.center, b.top, b.bottom, b.left, b.right;
      centerSize, topSize, bottomSize, leftSize, rightSize := SizeZero(), SizeZero(), SizeZero(), SizeZero(), SizeZero();
      finalSize := SizeZero();
      finalRect := RectDefault();
    }

    /** The sizes the slots measured to last, zero for absent ones. */
    function CachedSizes(): DockSizes
      reads this
    {
      DockSizes(topSize, bottomSize, leftSize, rightSize, centerSize)
    }

    /**
     * `measure`: the slots are measured in order against the shrinking
     * remainder of the clamped space, each caching its size; the dock
     * resolves what they require against the clamped space and caches that.
     */
    method Measure(available: Size) returns (r: Size)
      modifies this`topSize, this`bottomSize, this`leftSize, this`rightSize, this`centerSize, this`finalSize
      ensures CachedSizes() == MeasureSlots(top, bottom, left, right, center, CalcAvailableSize(sizing, available))
      ensures r == CalcFinalSize(sizing, CalcAvailableSize(sizing, available), Required(CachedSizes()))
      ensures finalSize == r
    {
      var avail := CalcAvailableSize(sizing, available);
      var remaining := avail;

      var t := SlotSize(top, remaining);
      topSize := t;
      remaining := Size(remaining.width, remaining.height - t.height);

      var b := SlotSize(bottom, remaining);
      bottomSize := b;
      remaining := Size(remaining.width, remaining.height - b.height);

      var l := SlotSize(left, remaining);
      leftSize := l;
      remaining := Size(remaining.width - l.width, remaining.height);

      var rt := SlotSize(right, remaining);
      rightSize := rt;
      remaining := Size(remaining.width - rt.width, remaining.height);

      var c := SlotSize(center, remaining);
      centerSize := c;

      var required := Size(Max3(t.width, b.width, l.width + c.width + rt.width),
                           Max3(l.height, rt.height, t.height + c.height + b.height));
      MeasureSlotsInOrder(top, bottom, left, right, center, avail, t, b, l, rt, c);
      r := CalcFinalSize(sizing, avail, required);
      finalSize := r;
    }

    /**
     * `arrange`: each present slot is arranged in its closed-form rect
     * (returned in `handed`); the rects the slots return are discarded, and
     * the dock caches and returns the frame.
     */
    method Arrange(frame: Rect) returns (r: Rect, ghost handed: DockRects)
      modifies this`finalRect
      ensures r == frame && finalRect == frame
      ensures handed == Placements(frame, CachedSizes())
    {
      var t, b, l, rt, c := topSize, bottomSize, leftSize, rightSize, centerSize;
      var band := frame.size.height - t.height - b.height;
      var topRect := Rect(frame.pos, Size(frame.size.width, t.height));
      var bottomRect := Rect(Point(frame.pos.x, frame.pos.y + frame.size.height - b.height),
                             Size(frame.size.width, b.height));
      var leftRect := Rect(Point(frame.pos.x, frame.pos.y + t.height), Size(l.width, band));
      var rightRect := Rect(Point(frame.pos.x + frame.size.width - rt.width, frame.pos.y + t.height),
                            Size(rt.width, band));
      var centerRect := Rect(Point(frame.pos.x + l.width, frame.pos.y + t.height),
                             Size(frame.size.width - l.width - rt.width, band));
      handed := DockRects(topRect, bottomRect, leftRect, rightRect, centerRect);
      finalRect := frame;
      r := frame;
    }

    /** The `dispatch_*` methods, with the dock's own default handlers. */
    function Dispatch(e: Event): (d: Dispatched<DockStep>)
      reads this
      ensures e.CursorMovedInput? && !Contains(finalRect, e.cursorEvent.pos) ==> d == Skipped()
      ensures !e.CursorMovedInput? || Contains(finalRect, e.cursorEvent.pos) ==>
        (d.claimed <==> SlotClaims(center, e) || SlotClaims(top, e) ||
                        SlotClaims(left, e) || SlotClaims(right, e) ||
                        SlotClaims(bottom, e))
    {
      ClaimedIffSomeSlotClaimsGate(this, e);
      DockDispatch(DefaultHandlers(), top, bottom, left,
                   right, center, finalRect, e)
    }
  }

  lemma ClaimedIffSomeSlotClaimsGate(d: Dock, e: Event)
    ensures !e.CursorMovedInput? || Contains(d.finalRect, e.cursorEvent.pos) ==>
      (DockDispatch(DefaultHandlers(), d.top, d.bottom, d.left,
                    d.right, d.center, d.finalRect, e).claimed <==>
       SlotClaims(d.center, e) || SlotClaims(d.top, e) ||
       SlotClaims(d.left, e) || SlotClaims(d.right, e) ||
       SlotClaims(d.bottom, e))
  {
    if !e.CursorMovedInput? || Contains(d.finalRect, e.cursorEvent.pos) {
      ClaimedIffSomeSlotClaims(d.top, d.bottom, d.left,
                               d.right, d.center, d.finalRect, e);
    }
  }
}
