/**
 * The vertical stack of `src/layouts/column.rs`.
 *
 * `measure` walks the children top to bottom, offering each the clamped
 * available width and whatever height the earlier children left; `arrange`
 * stacks them at their cached sizes and aligns each horizontally. The child
 * list is a field the methods reassign; each child keeps its cached
 * `final_size` and `final_rect` beside its component.
 */
module ColumnLayout {
  import opened Wrappers
  import opened Geometry
  import opened Components

  // ---------------------------------------------------------------------------
  // Reference functions: greedy measurement and stacked placement
  // ---------------------------------------------------------------------------

  /** Total height of `sizes`. */
  function SumHeights(sizes: seq<Size>): real
  {
    if sizes == [] then 0.0 else SumHeights(sizes[..|sizes| - 1]) + sizes[|sizes| - 1].height
  }

  /** `max_width`: the fold of `f32::max` over the widths, starting from zero. */
  function MaxWidth(sizes: seq<Size>): (r: real)
    ensures r >= 0.0
    ensures forall i :: 0 <= i < |sizes| ==> sizes[i].width <= r
    ensures r == 0.0 || exists i :: 0 <= i < |sizes| && sizes[i].width == r
  {
    if sizes == [] then 0.0
    else
      var m := MaxWidth(sizes[..|sizes| - 1]);
      var w := sizes[|sizes| - 1].width;
      assert forall i :: 0 <= i < |sizes| - 1 ==> sizes[..|sizes| - 1][i] == sizes[i];
      if m >= w then m else w
  }

  /** Appending a size adds its height and may raise the maximum width. */
  lemma SnocSizes(sizes: seq<Size>, s: Size)
    ensures SumHeights(sizes + [s]) == SumHeights(sizes) + s.height
    ensures MaxWidth(sizes + [s]) == if MaxWidth(sizes) >= s.width then MaxWidth(sizes) else s.width
  {
    assert (sizes + [s])[..|sizes|] == sizes;
  }

  /** Heights add up from the front as well as from the back. */
  lemma {:induction false} SumHeightsCons(x: Size, t: seq<Size>)
    ensures SumHeights([x] + t) == x.height + SumHeights(t)
    decreases |t|
  {
    if t != [] {
      var n := |t| - 1;
      assert ([x] + t)[..n + 1] == [x] + t[..n];
      SumHeightsCons(x, t[..n]);
    } else {
      assert [x] + t == [x];
      assert [x][..0] == [];
    }
  }

  /**
   * The sizes the children report when measured greedily from `bound`: the
   * first child gets `bound`, and each next child the same width and the
   * height the earlier ones left.
   */
  function GreedySizes(comps: seq<DynComponent>, bound: Size): (sizes: seq<Size>)
    ensures |sizes| == |comps|
    decreases |comps|
  {
    if comps == [] then []
    else
      var s := Measured(comps[0], bound);
      [s] + GreedySizes(comps[1..], Size(bound.width, bound.height - s.height))
  }

  /** The bound child `i` is measured against. */
  function ChildBound(offered: Size, sizes: seq<Size>, i: nat): Size
    requires i <= |sizes|
  {
    Size(offered.width, offered.height - SumHeights(sizes[..i]))
  }

  /**
   * Child `i` is measured against the offered width and the offered height
   * minus the heights of the children before it.
   */
  lemma {:induction false} GreedySizesAt(comps: seq<DynComponent>, offered: Size, i: nat)
    requires i < |comps|
    ensures GreedySizes(comps, offered)[i] ==
            Measured(comps[i], ChildBound(offered, GreedySizes(comps, offered), i))
    decreases i
  {
    var sizes := GreedySizes(comps, offered);
    if i == 0 {
      assert sizes[..0] == [];
    } else {
      var s0 := Measured(comps[0], offered);
      var next := Size(offered.width, offered.height - s0.height);
      var rest := GreedySizes(comps[1..], next);
      assert sizes == [s0] + rest;
      GreedySizesAt(comps[1..], next, i - 1);
      assert sizes[..i] == [s0] + rest[..i - 1];
      SumHeightsCons(s0, rest[..i - 1]);
    }
  }

  /**
   * The requirement `Column::measure` passes to `calc_final_size`: the widest
   * child, and `available.height - remaining.height`, where the remaining
   * height started from the clamped (offered) height.
   */
  function RequiredAsWritten(available: Size, offered: Size, sizes: seq<Size>): (r: Size)
    ensures r.width >= 0.0
    ensures r.height == SumHeights(sizes) + (available.height - offered.height)
  {
    Size(MaxWidth(sizes), available.height - (offered.height - SumHeights(sizes)))
  }

  /** Left x, centred x or right-aligned x of a child of width `w` in `frame`. */
  function ChildX(align: HorizontalAlignment, frame: Rect, w: real): real
  {
    match align
    case AlignLeft => frame.pos.x
    case AlignCenterH => frame.pos.x + (frame.size.width - w) / 2.0
    case AlignRight => frame.pos.x + frame.size.width - w
  }

  /** The rect child `i` is arranged in: stacked below the earlier children's cached heights. */
  function Placement(align: HorizontalAlignment, frame: Rect, sizes: seq<Size>, i: nat): Rect
    requires i < |sizes|
  {
    Rect(Point(ChildX(align, frame, sizes[i].width), frame.pos.y + SumHeights(sizes[..i])), sizes[i])
  }

  /** The alignment offsets, stated as edges and centres. */
  lemma PlacementAligned(align: HorizontalAlignment, frame: Rect, sizes: seq<Size>, i: nat)
    requires i < |sizes|
    ensures Placement(align, frame, sizes, i).size == sizes[i]
    ensures align == AlignLeft ==> Placement(align, frame, sizes, i).pos.x == frame.pos.x
    ensures align == AlignRight ==>
      Placement(align, frame, sizes, i).pos.x + sizes[i].width == frame.pos.x + frame.size.width
    ensures align == AlignCenterH ==>
      Center(Placement(align, frame, sizes, i)).x == Center(frame).x
  {
  }

  /** The first child starts at the top, and each next child starts where the previous one ends. */
  lemma PlacementStacks(align: HorizontalAlignment, frame: Rect, sizes: seq<Size>, i: nat)
    requires i + 1 < |sizes|
    ensures Placement(align, frame, sizes, 0).pos.y == frame.pos.y
    ensures Placement(align, frame, sizes, i + 1).pos.y ==
            Placement(align, frame, sizes, i).pos.y + sizes[i].height
  {
    assert sizes[..i + 1][..i] == sizes[..i];
    assert sizes[..0] == [];
  }

  /**
   * Height conservation: on a `Fit` height whose bounds admit both the
   * available height and the children's total, the column is exactly as tall
   * as its children.
   */
  lemma FitHeightIsSum(s: Sizing, available: Size, sizes: seq<Size>)
    requires s.height.desired.Fit?
    requires s.height.min <= available.height <= s.height.max
    requires s.height.min <= SumHeights(sizes) <= s.height.max
    ensures CalcFinalSize(s, available, RequiredAsWritten(available, CalcAvailableSize(s, available), sizes)).height
            == SumHeights(sizes)
  {
  }

  /**
   * The requirement the measuring loop evidently means: the widest child and
   * the height the children consumed out of the offered height.
   */
  function RequiredIntended(sizes: seq<Size>): (r: Size)
    ensures r.width >= 0.0 && forall i :: 0 <= i < |sizes| ==> sizes[i].width <= r.width
  {
    Size(MaxWidth(sizes), SumHeights(sizes))
  }

  /** The two requirements agree exactly when the offered height was not clamped. */
  lemma RequiredAgreesUnclamped(available: Size, offered: Size, sizes: seq<Size>)
    ensures RequiredAsWritten(available, offered, sizes) == RequiredIntended(sizes)
            <==> available.height == offered.height
  {
  }

  /**
   * With the intended requirement a `Fit` column whose children's total fits
   * its bounds reports that total, however much height was available.
   */
  lemma IntendedFitReportsContent(s: Sizing, available: Size, sizes: seq<Size>)
    requires s.height.desired.Fit?
    requires s.height.min <= SumHeights(sizes) <= s.height.max
    ensures CalcFinalSize(s, available, RequiredIntended(sizes)).height
            == SumHeights(sizes)
  {
  }

  /**
   * As written, a `Fit` column with a maximum height of 100 and one child 10
   * high, offered 200, reports 100 rather than 10.
   */
  lemma AsWrittenFitColumnReportsMax()
    ensures var s := SizingFitMinMax(Size(0.0, 0.0), Size(500.0, 100.0));
            var available := Size(300.0, 200.0);
            var sizes := [Size(40.0, 10.0)];
            SumHeights(sizes) == 10.0 &&
            CalcFinalSize(s, available, RequiredAsWritten(available, CalcAvailableSize(s, available), sizes)).height
            == 100.0 &&
            CalcFinalSize(s, available, RequiredIntended(sizes)).height
            == 10.0
  {
    assert [Size(40.0, 10.0)][..0] == [];
  }

  /** Three children of heights h1, h2, h3 sit at offsets 0, h1 and h1 + h2. */
  lemma ThreeChildOffsets(align: HorizontalAlignment, frame: Rect, a: Size, b: Size, c: Size)
    requires frame.pos.y == 0.0
    ensures SumHeights([a, b, c]) == a.height + b.height + c.height
    ensures Placement(align, frame, [a, b, c], 0).pos.y == 0.0
    ensures Placement(align, frame, [a, b, c], 1).pos.y == a.height
    ensures Placement(align, frame, [a, b, c], 2).pos.y == a.height + b.height
  {
    assert [a, b, c][..0] == [];
    assert [a, b, c][..1] == [a];
    assert [a, b, c][..2] == [a, b];
    assert [a, b][..1] == [a];
    assert [a][..0] == [];
    assert SumHeights([a]) == a.height;
    assert SumHeights([a, b]) == a.height + b.height;
    assert SumHeights([a, b, c]) == SumHeights([a, b]) + c.height;
  }

  // ---------------------------------------------------------------------------
  // Dirty aggregation
  // ---------------------------------------------------------------------------

  /** `children.iter().any(|c| c.component.is_layout_dirty())`. */
  function AnyLayoutDirty(cs: seq<DynComponent>): (r: bool)
    ensures r <==> exists i :: 0 <= i < |cs| && cs[i].layoutDirty
  {
    if cs == [] then false
    else
      assert forall i :: 1 <= i < |cs| ==> cs[1..][i - 1] == cs[i];
      cs[0].layoutDirty || AnyLayoutDirty(cs[1..])
  }

  /** `children.iter().any(|c| c.component.is_visually_dirty())`. */
  function AnyVisuallyDirty(cs: seq<DynComponent>): (r: bool)
    ensures r <==> exists i :: 0 <= i < |cs| && cs[i].visuallyDirty
  {
    if cs == [] then false
    else
      assert forall i :: 1 <= i < |cs| ==> cs[1..][i - 1] == cs[i];
      cs[0].visuallyDirty || AnyVisuallyDirty(cs[1..])
  }

  /** A prefix one longer is the prefix and the next element. */
  lemma PrefixExtend<T>(xs: seq<T>, i: nat)
    requires i < |xs|
    ensures xs[..i + 1] == xs[..i] + [xs[i]]
  {
  }

  /** Overwriting slot `i` after a prefix of length `i` extends that prefix. */
  lemma UpdatePrefix<T>(xs: seq<T>, i: nat, x: T)
    requires i < |xs|
    ensures xs[i := x][..i + 1] == xs[..i] + [x]
  {
  }

  /**
   * One step of the measuring loop: if the first `i` cached sizes are the
   * greedy ones and `bound` is what they left, the size child `i` reports
   * against `bound` extends the greedy prefix by one.
   */
  lemma GreedyStep(comps: seq<DynComponent>, offered: Size, prefix: seq<Size>, i: nat, bound: Size)
    requires i < |comps|
    requires prefix == GreedySizes(comps, offered)[..i]
    requires bound == Size(offered.width, offered.height - SumHeights(prefix))
    ensures prefix + [Measured(comps[i], bound)] == GreedySizes(comps, offered)[..i + 1]
  {
    var g := GreedySizes(comps, offered);
    GreedySizesAt(comps, offered, i);
    assert ChildBound(offered, g, i) == bound;
    PrefixExtend(g, i);
  }

  /**
   * The measuring loop's state after child `i`: the cache of its first
   * `i + 1` slots is greedy, the remaining bound is what they left and the
   * running maximum covers them.
   */
  lemma MeasureLoopStep(comps: seq<DynComponent>, offered: Size, sizes: seq<Size>, i: nat,
                        remaining: Size, maxWidth: real)
    requires i < |comps| == |sizes|
    requires sizes[..i] == GreedySizes(comps, offered)[..i]
    requires remaining == Size(offered.width, offered.height - SumHeights(sizes[..i]))
    requires maxWidth == MaxWidth(sizes[..i])
    ensures var s := Measured(comps[i], remaining);
            var sizes' := sizes[i := s];
            sizes'[..i + 1] == GreedySizes(comps, offered)[..i + 1] &&
            Size(remaining.width, remaining.height - s.height) ==
              Size(offered.width, offered.height - SumHeights(sizes'[..i + 1])) &&
            (if maxWidth >= s.width then maxWidth else s.width) == MaxWidth(sizes'[..i + 1])
  {
    var s := Measured(comps[i], remaining);
    GreedyStep(comps, offered, sizes[..i], i, remaining);
    SnocSizes(sizes[..i], s);
    UpdatePrefix(sizes, i, s);
  }

  // ---------------------------------------------------------------------------
  // Builder
  // ---------------------------------------------------------------------------

  datatype ColumnBuilder = ColumnBuilder(
    children: Option<seq<DynComponent>>,
    sizing: Sizing,
    horizAlign: Option<HorizontalAlignment>)

  /** `Column::build()`, the derived `Default`: no children, the derived `Sizing` default, no alignment. */
  function NewColumnBuilder(): (b: ColumnBuilder)
    ensures b.children == None && b.horizAlign == None
    ensures b.sizing == SizingFill()
  {
    ColumnBuilder(None, SizingTraitDefault(), None)
  }

  function WithChildren(b: ColumnBuilder, children: seq<DynComponent>): (r: ColumnBuilder)
    ensures r.children == Some(children)
    ensures r.sizing == b.sizing && r.horizAlign == b.horizAlign
  {
    b.(children := Some(children))
  }

  /** `with_width` replaces the desired width only; the clamp bounds stay as they were. */
  function WithWidth(b: ColumnBuilder, width: Length): (r: ColumnBuilder)
    ensures r.sizing.width.desired == width
    ensures r.sizing.width.min == b.sizing.width.min && r.sizing.width.max == b.sizing.width.max
    ensures r.sizing.height == b.sizing.height
    ensures r.children == b.children && r.horizAlign == b.horizAlign
  {
    b.(sizing := b.sizing.(width := b.sizing.width.(desired := width)))
  }

  /** `with_height` replaces the desired height only. */
  function WithHeight(b: ColumnBuilder, height: Length): (r: ColumnBuilder)
    ensures r.sizing.height.desired == height
    ensures r.sizing.height.min == b.sizing.height.min && r.sizing.height.max == b.sizing.height.max
    ensures r.sizing.width == b.sizing.width
    ensures r.children == b.children && r.horizAlign == b.horizAlign
  {
    b.(sizing := b.sizing.(height := b.sizing.height.(desired := height)))
  }

  function WithHorizontalAlignment(b: ColumnBuilder, align: HorizontalAlignment): (r: ColumnBuilder)
    ensures r.horizAlign == Some(align)
    ensures r.children == b.children && r.sizing == b.sizing
  {
    b.(horizAlign := Some(align))
  }

  /** The alignment `build` settles on: the one set, else `Left`. */
  function BuiltAlignment(b: ColumnBuilder): (a: HorizontalAlignment)
    ensures b.horizAlign.None? ==> a == AlignLeft
    ensures b.horizAlign.Some? ==> a == b.horizAlign.value
  {
    b.horizAlign.GetOr(AlignLeft)
  }

  // ---------------------------------------------------------------------------
  // The column
  // ---------------------------------------------------------------------------

  /**
   * The source keeps a `Vec<ColumnChild>` of (component, final_size,
   * final_rect) records. Here the three columns of that vector are three
   * sequences of equal length: the components, fixed by `build`, and the two
   * caches the methods rewrite slot by slot.
   */
  class Column {
    const components: seq<DynComponent>
    var finalSizes: seq<Size>
    var finalRects: seq<Rect>
    const sizing: Sizing
    const horizAlign: HorizontalAlignment

    ghost predicate Valid()
      reads this
    {
      |finalSizes| == |components| && |finalRects| == |components|
    }

    /** `ColumnBuilder::build`: every child starts with a default size and rect. */
    constructor Build(b: ColumnBuilder)
      ensures Valid()
      ensures components == b.children.GetOr([])
      ensures forall i :: 0 <= i < |finalSizes| ==> finalSizes[i] == SizeDefault()
      ensures forall i :: 0 <= i < |finalRects| ==> finalRects[i] == RectDefault()
      ensures sizing == b.sizing
      ensures horizAlign == BuiltAlignment(b)
    {
      components := b.children.GetOr([]);
      finalSizes := seq(|b.children.GetOr([])|, _ => SizeDefault());
      finalRects := seq(|b.children.GetOr([])|, _ => RectDefault());
      sizing := b.sizing;
      horizAlign := BuiltAlignment(b);
    }

    function IsLayoutDirty(): (r: bool)
      reads this
      ensures r <==> exists i :: 0 <= i < |components| && components[i].layoutDirty
      ensures components == [] ==> !r
    {
      AnyLayoutDirty(components)
    }

    function IsVisuallyDirty(): (r: bool)
      reads this
      ensures r <==> exists i :: 0 <= i < |components| && components[i].visuallyDirty
      ensures components == [] ==> !r
    {
      AnyVisuallyDirty(components)
    }

    /**
     * Greedy top-to-bottom measurement. Each child's size is cached in its
     * slot; the result resolves the widest child and the consumed height
     * against the unclamped `available`.
     */
    method Measure(available: Size) returns (r: Size)
      requires Valid()
      modifies this`finalSizes
      ensures Valid()
      ensures finalSizes == GreedySizes(components, CalcAvailableSize(sizing, available))
      ensures r == CalcFinalSize(sizing, available,
                    RequiredAsWritten(available, CalcAvailableSize(sizing, available), finalSizes))
    {
      var offered := CalcAvailableSize(sizing, available);
      var remaining := offered;
      var maxWidth := 0.0;
      ghost var greedy := GreedySizes(components, offered);
      var i := 0;
      while i < |components|
        invariant 0 <= i <= |components| == |finalSizes| == |greedy|
        invariant finalSizes[..i] == greedy[..i]
        invariant remaining == Size(offered.width, offered.height - SumHeights(finalSizes[..i]))
        invariant maxWidth == MaxWidth(finalSizes[..i])
      {
        MeasureLoopStep(components, offered, finalSizes, i, remaining, maxWidth);
        var s := Measured(components[i], remaining);
        finalSizes := finalSizes[i := s];
        remaining := Size(remaining.width, remaining.height - s.height);
        maxWidth := if maxWidth >= s.width then maxWidth else s.width;
        i := i + 1;
      }
      assert finalSizes[..i] == finalSizes && greedy[..i] == greedy;
      var required := Size(maxWidth, available.height - remaining.height);
      assert required == RequiredAsWritten(available, offered, finalSizes);
      r := CalcFinalSize(sizing, available, required);
    }

    /**
     * The shared loop of `arrange_left`, `arrange_center` and `arrange_right`:
     * child `i` is arranged in `Placement(align, frame, finalSizes, i)` and
     * the rect it returns is cached; `y` advances by the cached height, not by
     * the returned rect.
     */
    method ArrangeAligned(frame: Rect, align: HorizontalAlignment) returns (r: Rect)
      requires Valid()
      modifies this`finalRects
      ensures Valid()
      ensures r == frame
      ensures forall i :: 0 <= i < |finalRects| ==>
        finalRects[i] == components[i].arrange(Placement(align, frame, finalSizes, i))
    {
      var y := frame.pos.y;
      var i := 0;
      while i < |components|
        invariant 0 <= i <= |components| == |finalRects| == |finalSizes|
        invariant forall j :: 0 <= j < i ==>
          finalRects[j] == components[j].arrange(Placement(align, frame, finalSizes, j))
        invariant y == frame.pos.y + SumHeights(finalSizes[..i])
      {
        var size := finalSizes[i];
        var x := match align
          case AlignLeft => frame.pos.x
          case AlignCenterH => frame.pos.x + (frame.size.width - size.width) / 2.0
          case AlignRight => frame.pos.x + frame.size.width - size.width;
        finalRects := finalRects[i := components[i].arrange(Rect(Point(x, y), size))];
        assert finalSizes[..i + 1][..i] == finalSizes[..i];
        y := y + size.height;
        i := i + 1;
      }
      r := frame;
    }

    /** `arrange`: pick the loop for the column's alignment; the column keeps the rect it was given. */
    method Arrange(frame: Rect) returns (r: Rect)
      requires Valid()
      modifies this`finalRects
      ensures Valid()
      ensures r == frame
      ensures forall i :: 0 <= i < |finalRects| ==>
        finalRects[i] == components[i].arrange(Placement(horizAlign, frame, finalSizes, i))
    {
      match horizAlign
      case AlignLeft => r := ArrangeAligned(frame, AlignLeft);
      case AlignCenterH => r := ArrangeAligned(frame, AlignCenterH);
      case AlignRight => r := ArrangeAligned(frame, AlignRight);
    }
  }
}
