/**
 * The older vertical stack of `src/layouts/mod.rs`. Its `measure` runs the
 * same greedy loop as `src/layouts/column.rs` but caches nothing, and its
 * `arrange` hands back the rect without arranging any child. The resolver it
 * calls (`calculate_available_size`, `calculate_final_size`) is the one of
 * `src/component.rs`.
 */
module StaleColumn {
  import opened Wrappers
  import opened Geometry
  import opened Components
  import ColumnLayout

  /** A column owns its children and its sizing; none of it changes after `build`. */
  datatype Column = Column(children: seq<DynComponent>, sizing: Sizing)

  datatype ColumnBuilder = ColumnBuilder(children: Option<seq<DynComponent>>, sizing: Sizing)

  /** `Column::build()`: the derived `Default`, so `Fill` on both axes and no children. */
  function NewColumnBuilder(): (b: ColumnBuilder)
    ensures b.children == None
    ensures b.sizing == SizingFill()
  {
    ColumnBuilder(None, SizingTraitDefault())
  }

  function WithChildren(b: ColumnBuilder, children: seq<DynComponent>): (r: ColumnBuilder)
    ensures r.children == Some(children) && r.sizing == b.sizing
  {
    b.(children := Some(children))
  }

  /** `with_width` replaces the desired width only. */
  function WithWidth(b: ColumnBuilder, width: Length): (r: ColumnBuilder)
    ensures r.sizing.width.desired == width
    ensures r.sizing.width.min == b.sizing.width.min && r.sizing.width.max == b.sizing.width.max
    ensures r.sizing.height == b.sizing.height && r.children == b.children
  {
    b.(sizing := b.sizing.(width := b.sizing.width.(desired := width)))
  }

  /** `with_height` replaces the desired height only. */
  function WithHeight(b: ColumnBuilder, height: Length): (r: ColumnBuilder)
    ensures r.sizing.height.desired == height
    ensures r.sizing.height.min == b.sizing.height.min && r.sizing.height.max == b.sizing.height.max
    ensures r.sizing.width == b.sizing.width && r.children == b.children
  {
    b.(sizing := b.sizing.(height := b.sizing.height.(desired := height)))
  }

  /** `build`: the children given, or none. */
  function Build(b: ColumnBuilder): (c: Column)
    ensures b.children.None? ==> c.children == []
    ensures b.children.Some? ==> c.children == b.children.value
    ensures c.sizing == b.sizing
  {
    Column(b.children.GetOr([]), b.sizing)
  }

  /**
   * `measure`: each child is measured against the clamped width and the
   * height the earlier children left; the result resolves the widest child
   * and `available.height - remaining.height` against the unclamped space.
   */
  method Measure(c: Column, available: Size) returns (r: Size)
    ensures r == CalcFinalSize(c.sizing, available,
                  ColumnLayout.RequiredAsWritten(available, CalcAvailableSize(c.sizing, available),
                                    ColumnLayout.GreedySizes(c.children, CalcAvailableSize(c.sizing, available))))
  {
    var offered := CalcAvailableSize(c.sizing, available);
    var remaining := offered;
    var maxWidth := 0.0;
    ghost var greedy := ColumnLayout.GreedySizes(c.children, offered);
    ghost var sizes: seq<Size> := [];
    var i := 0;
    while i < |c.children|
      invariant 0 <= i <= |c.children| == |greedy|
      invariant sizes == greedy[..i]
      invariant remaining == Size(offered.width, offered.height - ColumnLayout.SumHeights(sizes))
      invariant maxWidth == ColumnLayout.MaxWidth(sizes)
    {
      var childSize := Measured(c.children[i], remaining);
      ColumnLayout.GreedyStep(c.children, offered, sizes, i, remaining);
      ColumnLayout.SnocSizes(sizes, childSize);
      sizes := sizes + [childSize];
      remaining := Size(remaining.width, remaining.height - childSize.height);
      maxWidth := if maxWidth >= childSize.width then maxWidth else childSize.width;
      i := i + 1;
    }
    assert greedy[..i] == greedy;
    r := CalcFinalSize(c.sizing, available, Size(maxWidth, available.height - remaining.height));
  }

  /** `arrange` hands the rect back and arranges no child. */
  function Arrange(c: Column, frame: Rect): (r: Rect)
    ensures r == frame
  {
    frame
  }

  /** With no children the stale column requires nothing beyond what clamping took away. */
  lemma EmptyColumnRequirement(s: Sizing, available: Size)
    ensures ColumnLayout.RequiredAsWritten(available, CalcAvailableSize(s, available), ColumnLayout.GreedySizes([], CalcAvailableSize(s, available)))
            == Size(0.0, available.height - CalcAvailableSize(s, available).height)
  {
  }
}
