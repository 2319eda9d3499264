/**
 * Geometry value types of the toolkit: `Size`, `Point`, `Rect`, `Length`,
 * `Dimension` and `Sizing`, with their componentwise operators and the `Rect`
 * predicates that layout and hit-testing use.
 *
 * The crate defines these types twice, in `src/lib.rs` and again, line for
 * line, in `src/datatypes/sizing.rs`; one module models both. Lengths are f32
 * in the source and `real` here; `f32::MIN` and `f32::MAX` survive only as the
 * sentinel bounds of unconstrained dimensions.
 */
module Geometry {

  /** `f32::MAX`, the largest finite single-precision value. */
  const F32Max: real := 340282346638528859811704183484516925440.0
  /** `f32::MIN`, the most negative finite single-precision value. */
  const F32Min: real := -F32Max

  datatype Size = Size(width: real, height: real)
  datatype Point = Point(x: real, y: real)
  datatype Rect = Rect(pos: Point, size: Size)

  /** `Size::MIN`: both components at the f32 sentinel. */
  const SizeMin: Size := Size(F32Min, F32Min)

  // ---------------------------------------------------------------------------
  // Size operators
  // ---------------------------------------------------------------------------

  function SizePlus(a: Size, b: Size): Size { Size(a.width + b.width, a.height + b.height) }
  function SizeMinus(a: Size, b: Size): Size { Size(a.width - b.width, a.height - b.height) }
  function SizeTimes(a: Size, b: Size): Size { Size(a.width * b.width, a.height * b.height) }

  function SizeOver(a: Size, b: Size): Size
    requires b.width != 0.0 && b.height != 0.0
  {
    Size(a.width / b.width, a.height / b.height)
  }

  function SizeNeg(a: Size): Size { Size(-a.width, -a.height) }
  function SizeScale(a: Size, k: real): Size { Size(a.width * k, a.height * k) }

  function SizeDivScalar(a: Size, k: real): Size
    requires k != 0.0
  {
    Size(a.width / k, a.height / k)
  }

  /** `Zero::zero()` for `Size`. */
  function SizeZero(): Size { Size(0.0, 0.0) }

  /** `Zero::is_zero` for `Size`. */
  predicate SizeIsZero(s: Size) { s.width == 0.0 && s.height == 0.0 }

  /** `Default` for `Size` (derived): both fields at their default, zero. */
  function SizeDefault(): Size { Size(0.0, 0.0) }

  // ---------------------------------------------------------------------------
  // Point operators
  // ---------------------------------------------------------------------------

  function PointPlus(a: Point, b: Point): Point { Point(a.x + b.x, a.y + b.y) }
  function PointMinus(a: Point, b: Point): Point { Point(a.x - b.x, a.y - b.y) }
  function PointScale(p: Point, k: real): Point { Point(p.x * k, p.y * k) }

  function PointDivScalar(p: Point, k: real): Point
    requires k != 0.0
  {
    Point(p.x / k, p.y / k)
  }

  /** `Point + Size`: shift by (width, height). */
  function PointOffset(p: Point, s: Size): Point { Point(p.x + s.width, p.y + s.height) }

  /** `Point - Size`: shift back by (width, height). */
  function PointUnoffset(p: Point, s: Size): Point { Point(p.x - s.width, p.y - s.height) }

  /** `Point::relative_to`: the position of `p` seen from `origin`. */
  function RelativeTo(p: Point, origin: Point): Point { Point(p.x - origin.x, p.y - origin.y) }

  function PointZero(): Point { Point(0.0, 0.0) }
  predicate PointIsZero(p: Point) { p.x == 0.0 && p.y == 0.0 }

  /** `Default` for `Rect` (derived): origin position and zero size. */
  function RectDefault(): Rect { Rect(PointZero(), SizeZero()) }

  // ---------------------------------------------------------------------------
  // Rect
  // ---------------------------------------------------------------------------

  /** The midpoint of the rectangle. */
  function Center(r: Rect): Point
  {
    Point(r.pos.x + r.size.width / 2.0, r.pos.y + r.size.height / 2.0)
  }

  /** A rectangle of size `s` centred on `r`. */
  function AlignCenter(r: Rect, s: Size): (a: Rect)
    ensures a.size == s
    ensures Center(a) == Center(r)
  {
    Rect(Point(r.pos.x + (r.size.width - s.width) / 2.0,
               r.pos.y + (r.size.height - s.height) / 2.0), s)
  }

  /** Hit test, inclusive on all four edges. */
  predicate Contains(r: Rect, p: Point)
  {
    p.x >= r.pos.x && p.x <= r.pos.x + r.size.width &&
    p.y >= r.pos.y && p.y <= r.pos.y + r.size.height
  }

  /** Overlap test, strict on all four edges. */
  predicate Intersects(a: Rect, b: Rect)
  {
    a.pos.x < b.pos.x + b.size.width &&
    a.pos.x + a.size.width > b.pos.x &&
    a.pos.y < b.pos.y + b.size.height &&
    a.pos.y + a.size.height > b.pos.y
  }

  predicate NonNegative(s: Size) { s.width >= 0.0 && s.height >= 0.0 }

  // ---------------------------------------------------------------------------
  // Length, Dimension, Sizing
  // ---------------------------------------------------------------------------

  datatype Length = Fit | Fill | Fixed(pixels: real)

  /** `Default` for `Length`. */
  function LengthDefault(): Length { Fit }

  datatype Dimension = Dimension(desired: Length, min: real, max: real)

  function DimensionFit(): Dimension { Dimension(Fit, F32Min, F32Max) }
  function DimensionFill(): Dimension { Dimension(Fill, F32Min, F32Max) }

  /** `Dimension::fixed`: a pinned length whose clamp bounds collapse onto it. */
  function DimensionFixed(pixels: real): (d: Dimension)
    ensures d.desired == Fixed(pixels)
    ensures d.min == pixels && d.max == pixels
  {
    Dimension(Fixed(pixels), pixels, pixels)
  }

  /** `Dimension::default()`, and the `Default` impl that forwards to it. */
  function DimensionDefault(): Dimension { DimensionFill() }

  datatype Sizing = Sizing(width: Dimension, height: Dimension)

  function SizingFit(): Sizing { Sizing(DimensionFit(), DimensionFit()) }
  function SizingFill(): Sizing { Sizing(DimensionFill(), DimensionFill()) }

  /** `Sizing::fit_min_max`: `Fit` on both axes with the given bounds. */
  function SizingFitMinMax(lo: Size, hi: Size): (s: Sizing)
    ensures s.width.desired == Fit && s.height.desired == Fit
    ensures s.width.min == lo.width && s.width.max == hi.width
    ensures s.height.min == lo.height && s.height.max == hi.height
  {
    Sizing(Dimension(Fit, lo.width, hi.width), Dimension(Fit, lo.height, hi.height))
  }

  /** `Sizing::fixed`: `Dimension::fixed` applied to each component of `sz`. */
  function SizingFixed(sz: Size): (s: Sizing)
    ensures s.width == DimensionFixed(sz.width) && s.height == DimensionFixed(sz.height)
    ensures s.width.min == s.width.max == sz.width
    ensures s.height.min == s.height.max == sz.height
  {
    Sizing(DimensionFixed(sz.width), DimensionFixed(sz.height))
  }

  /** The inherent `Sizing::default()`: `Fit` on both axes. */
  function SizingDefault(): Sizing { SizingFit() }

  /**
   * `<Sizing as Default>::default()`, which `#[derive(Default)]` generates: it
   * takes each field's `Default`, that is `Dimension::default()`, which is
   * `Fill`. Builders that derive `Default` start from this one.
   */
  function SizingTraitDefault(): Sizing { Sizing(DimensionDefault(), DimensionDefault()) }

  datatype HorizontalAlignment = AlignLeft | AlignCenterH | AlignRight
  datatype VerticalAlignment = AlignTop | AlignCenterV | AlignBottom

  function HorizontalAlignmentDefault(): HorizontalAlignment { AlignLeft }
  function VerticalAlignmentDefault(): VerticalAlignment { AlignTop }

  /** RGBA colour with float channels (`Color`). */
  datatype Color = Color(r: real, g: real, b: real, a: real)

  /** `Default` for `Color` (derived): all channels zero. */
  function ColorDefault(): Color { Color(0.0, 0.0, 0.0, 0.0) }
  function ColorRgb(r: real, g: real, b: real): Color { Color(r, g, b, 1.0) }
  function ColorGrayscale(gray: real): Color { Color(gray, gray, gray, 1.0) }
  const White: Color := ColorRgb(1.0, 1.0, 1.0)

  // ---------------------------------------------------------------------------
  // Properties
  // ---------------------------------------------------------------------------

  /** Subtracting what was added gives back the original size. */
  lemma SizePlusMinusCancel(a: Size, b: Size)
    ensures SizeMinus(SizePlus(a, b), b) == a
    ensures SizePlus(SizeMinus(a, b), b) == a
    ensures SizePlus(a, SizeZero()) == a
  {
  }

  /** Componentwise product and quotient undo each other on non-zero divisors. */
  lemma SizeTimesOverCancel(a: Size, b: Size)
    requires b.width != 0.0 && b.height != 0.0
    ensures SizeOver(SizeTimes(a, b), b) == a
  {
  }

  /** Negation flips both components; scaling by a non-zero factor is undone by dividing by it. */
  lemma SizeNegAndScale(a: Size, k: real)
    requires k != 0.0
    ensures SizeNeg(a) == SizeScale(a, -1.0)
    ensures SizeNeg(SizeNeg(a)) == a
    ensures SizeDivScalar(SizeScale(a, k), k) == a
    ensures SizeScale(a, k).width == a.width * k && SizeScale(a, k).height == a.height * k
  {
  }

  /** `zero()` is the origin and `is_zero` recognises exactly it, for both `Size` and `Point`. */
  lemma ZeroIsZero(s: Size, p: Point)
    ensures SizeIsZero(SizeZero()) && PointIsZero(PointZero())
    ensures SizeIsZero(s) <==> s == SizeZero()
    ensures PointIsZero(p) <==> p == PointZero()
  {
  }

  /** `relative_to` is point subtraction, and adding the origin back restores the point. */
  lemma RelativeToIsMinus(p: Point, origin: Point)
    ensures RelativeTo(p, origin) == PointMinus(p, origin)
    ensures PointPlus(RelativeTo(p, origin), origin) == p
    ensures RelativeTo(p, p) == PointZero()
  {
  }

  /** Shifting a point by a size and back is the identity, in both orders. */
  lemma PointOffsetRoundTrip(p: Point, s: Size)
    ensures PointUnoffset(PointOffset(p, s), s) == p
    ensures PointOffset(PointUnoffset(p, s), s) == p
    ensures RelativeTo(PointOffset(p, s), p) == Point(s.width, s.height)
  {
  }

  /** Scaling a point by a non-zero factor is undone by dividing by it. */
  lemma PointScaleRoundTrip(p: Point, k: real)
    requires k != 0.0
    ensures PointDivScalar(PointScale(p, k), k) == p
  {
  }

  /** The closed hit test accepts all four corners of a rectangle with non-negative size. */
  lemma ContainsCorners(r: Rect)
    requires NonNegative(r.size)
    ensures Contains(r, r.pos)
    ensures Contains(r, PointOffset(r.pos, r.size))
    ensures Contains(r, Point(r.pos.x + r.size.width, r.pos.y))
    ensures Contains(r, Point(r.pos.x, r.pos.y + r.size.height))
    ensures Contains(r, Center(r))
  {
  }

  /** A point just past the right or bottom edge is outside. */
  lemma ContainsBounded(r: Rect, p: Point)
    requires p.x > r.pos.x + r.size.width || p.y > r.pos.y + r.size.height ||
             p.x < r.pos.x || p.y < r.pos.y
    ensures !Contains(r, p)
  {
  }

  /** Overlap is symmetric. */
  lemma IntersectsSymmetric(a: Rect, b: Rect)
    ensures Intersects(a, b) <==> Intersects(b, a)
  {
  }

  /**
   * Two rectangles placed side by side share an edge, and both contain the
   * points on it, yet they do not intersect: `contains` is closed and
   * `intersects` is strict.
   */
  lemma SharedEdgeDoesNotIntersect(a: Rect, b: Rect)
    requires NonNegative(a.size) && NonNegative(b.size)
    requires b.pos.x == a.pos.x + a.size.width && b.pos.y == a.pos.y
    ensures !Intersects(a, b) && !Intersects(b, a)
    ensures Contains(a, b.pos) && Contains(b, b.pos)
  {
  }

  /** A rectangle with positive area overlaps itself. */
  lemma IntersectsSelf(r: Rect)
    requires r.size.width > 0.0 && r.size.height > 0.0
    ensures Intersects(r, r)
  {
  }

  /** Centring a rectangle's own size within it gives the rectangle back. */
  lemma AlignCenterOwnSize(r: Rect)
    ensures AlignCenter(r, r.size) == r
  {
  }

  /** `fit()` and `fill()` leave both bounds at the f32 sentinels; `fixed(p)` pins both to `p`. */
  lemma DimensionConstructors(p: real)
    ensures DimensionFit() == Dimension(Fit, F32Min, F32Max)
    ensures DimensionFill() == Dimension(Fill, F32Min, F32Max)
    ensures DimensionFixed(p).min == DimensionFixed(p).max == p
    ensures F32Min < 0.0 < F32Max
  {
  }

  /**
   * The two defaults disagree: `Dimension::default()` is `Fill`, the inherent
   * `Sizing::default()` is `Fit` on both axes, and the derived `Default` for
   * `Sizing` is `Fill` on both axes.
   */
  lemma DefaultsDisagree()
    ensures DimensionDefault().desired == Fill
    ensures SizingDefault().width.desired == Fit && SizingDefault().height.desired == Fit
    ensures SizingTraitDefault() == SizingFill()
    ensures SizingDefault() != SizingTraitDefault()
    ensures LengthDefault() == Fit
  {
  }
}
