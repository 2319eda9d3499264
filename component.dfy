/**
 * The sizing resolver of `src/component.rs` (`ComponentSizingExt` for
 * `Sizing`) and the view of a boxed `dyn Component` that containers and the
 * scene have of their children.
 *
 * Each axis is resolved on its own: `Fit` and `Fill` clamp with f32 `max` then
 * `min`, `Fixed(p)` yields `p`. The clamp order makes the upper bound win when
 * the bounds are crossed.
 */
module Components {
  import opened Geometry
  import opened Input

  /** `v.max(lo).min(hi)`, as the resolver writes it. */
  function Clamp(v: real, lo: real, hi: real): (r: real)
    ensures r <= hi
    ensures lo <= hi ==> lo <= r
    ensures lo <= v <= hi ==> r == v
    ensures v <= lo <= hi ==> r == lo
    ensures (v >= hi || lo > hi) ==> r == hi
  {
    var m := if v >= lo then v else lo;
    if m <= hi then m else hi
  }

  /** One axis of `calc_available_size`. */
  function AvailableAxis(d: Dimension, available: real): (r: real)
    ensures d.desired.Fixed? ==> r == d.desired.pixels
    ensures !d.desired.Fixed? ==> r == Clamp(available, d.min, d.max)
    ensures !d.desired.Fixed? && d.min <= d.max ==> d.min <= r <= d.max
    ensures !d.desired.Fixed? && d.min <= available <= d.max ==> r == available
    ensures !d.desired.Fixed? && d.min > d.max ==> r == d.max
  {
    match d.desired
    case Fit => Clamp(available, d.min, d.max)
    case Fill => Clamp(available, d.min, d.max)
    case Fixed(pixels) => pixels
  }

  /** One axis of `calc_final_size`. */
  function FinalAxis(d: Dimension, available: real, required: real): (r: real)
    ensures d.desired.Fixed? ==> r == d.desired.pixels
    ensures d.desired.Fit? ==> r == Clamp(required, d.min, d.max)
    ensures d.desired.Fill? ==> r == Clamp(available, d.min, d.max)
    ensures !d.desired.Fixed? && d.min <= d.max ==> d.min <= r <= d.max
  {
    match d.desired
    case Fit => Clamp(required, d.min, d.max)
    case Fill => Clamp(available, d.min, d.max)
    case Fixed(pixels) => pixels
  }

  /** `calc_available_size`: the space a component offers its content. */
  function CalcAvailableSize(s: Sizing, available: Size): Size
  {
    Size(AvailableAxis(s.width, available.width), AvailableAxis(s.height, available.height))
  }

  /** `calc_final_size`: the size a component reports to its parent. */
  function CalcFinalSize(s: Sizing, available: Size, required: Size): Size
  {
    Size(FinalAxis(s.width, available.width, required.width),
         FinalAxis(s.height, available.height, required.height))
  }

  predicate BoundsOrdered(d: Dimension) { d.min <= d.max }

  // ---------------------------------------------------------------------------
  // Properties of the resolver
  // ---------------------------------------------------------------------------

  /** A `Fixed(p)` axis yields `p` from both functions, whatever is available or required. */
  lemma FixedIsAuthoritative(s: Sizing, available: Size, required: Size)
    ensures s.width.desired.Fixed? ==>
      CalcAvailableSize(s, available).width == s.width.desired.pixels &&
      CalcFinalSize(s, available, required).width == s.width.desired.pixels
    ensures s.height.desired.Fixed? ==>
      CalcAvailableSize(s, available).height == s.height.desired.pixels &&
      CalcFinalSize(s, available, required).height == s.height.desired.pixels
  {
  }

  /** `Sizing::fixed(sz)` resolves to `sz` both ways. */
  lemma SizingFixedResolves(sz: Size, available: Size, required: Size)
    ensures CalcAvailableSize(SizingFixed(sz), available) == sz
    ensures CalcFinalSize(SizingFixed(sz), available, required) == sz
  {
  }

  /** On `Fit` and `Fill` axes the offered space lies within ordered bounds. */
  lemma AvailableWithinBounds(s: Sizing, available: Size)
    ensures !s.width.desired.Fixed? && BoundsOrdered(s.width) ==>
      s.width.min <= CalcAvailableSize(s, available).width <= s.width.max
    ensures !s.height.desired.Fixed? && BoundsOrdered(s.height) ==>
      s.height.min <= CalcAvailableSize(s, available).height <= s.height.max
  {
  }

  /** With crossed bounds on a `Fit` or `Fill` axis the clamp order makes the result the maximum. */
  lemma CrossedBoundsGiveMax(s: Sizing, available: Size, required: Size)
    ensures !s.width.desired.Fixed? && s.width.min > s.width.max ==>
      CalcAvailableSize(s, available).width == s.width.max &&
      CalcFinalSize(s, available, required).width == s.width.max
    ensures !s.height.desired.Fixed? && s.height.min > s.height.max ==>
      CalcAvailableSize(s, available).height == s.height.max &&
      CalcFinalSize(s, available, required).height == s.height.max
  {
  }

  /** A `Fit` axis reports the clamped requirement and ignores what was available. */
  lemma FitIgnoresAvailable(s: Sizing, a1: Size, a2: Size, required: Size)
    ensures s.width.desired.Fit? ==>
      CalcFinalSize(s, a1, required).width == CalcFinalSize(s, a2, required).width ==
      Clamp(required.width, s.width.min, s.width.max)
    ensures s.height.desired.Fit? ==>
      CalcFinalSize(s, a1, required).height == CalcFinalSize(s, a2, required).height ==
      Clamp(required.height, s.height.min, s.height.max)
  {
  }

  /** A `Fill` axis reports the clamped available space and ignores the requirement. */
  lemma FillIgnoresRequired(s: Sizing, available: Size, r1: Size, r2: Size)
    ensures s.width.desired.Fill? ==>
      CalcFinalSize(s, available, r1).width == CalcFinalSize(s, available, r2).width ==
      Clamp(available.width, s.width.min, s.width.max)
    ensures s.height.desired.Fill? ==>
      CalcFinalSize(s, available, r1).height == CalcFinalSize(s, available, r2).height ==
      Clamp(available.height, s.height.min, s.height.max)
  {
  }

  /** Each axis reads only its own dimension and its own components of the inputs. */
  lemma AxesIndependent(s1: Sizing, s2: Sizing, a1: Size, a2: Size, r1: Size, r2: Size)
    ensures s1.width == s2.width && a1.width == a2.width ==>
      CalcAvailableSize(s1, a1).width == CalcAvailableSize(s2, a2).width
    ensures s1.width == s2.width && a1.width == a2.width && r1.width == r2.width ==>
      CalcFinalSize(s1, a1, r1).width == CalcFinalSize(s2, a2, r2).width
    ensures s1.height == s2.height && a1.height == a2.height ==>
      CalcAvailableSize(s1, a1).height == CalcAvailableSize(s2, a2).height
    ensures s1.height == s2.height && a1.height == a2.height && r1.height == r2.height ==>
      CalcFinalSize(s1, a1, r1).height == CalcFinalSize(s2, a2, r2).height
  {
  }

  /**
   * Offering the offered space again changes nothing. This holds even with
   * crossed bounds, because the clamp then lands on the maximum both times.
   */
  lemma AvailableIdempotent(s: Sizing, available: Size)
    ensures CalcAvailableSize(s, CalcAvailableSize(s, available)) == CalcAvailableSize(s, available)
  {
  }

  /**
   * Measuring a node against the space its own sizing offered, as
   * `Dock::measure` does, resolves `Fill` the same as against the raw space.
   */
  lemma FinalOfAvailableFill(s: Sizing, available: Size, required: Size)
    ensures s.width.desired.Fill? ==>
      CalcFinalSize(s, CalcAvailableSize(s, available), required).width ==
      CalcFinalSize(s, available, required).width
    ensures s.height.desired.Fill? ==>
      CalcFinalSize(s, CalcAvailableSize(s, available), required).height ==
      CalcFinalSize(s, available, required).height
  {
  }

  // ---------------------------------------------------------------------------
  // A child component, as its parent sees it
  // ---------------------------------------------------------------------------

  /**
   * A `Box<dyn Component>` owned by a container or the scene. Its own state
   * (caches, visuals) is below this view: the parent only sees what `measure`
   * and `arrange` return for a given argument, what its `dispatch_*` methods
   * answer, and its dirty flags.
   */
  datatype DynComponent = DynComponent(
    measure: Size -> Size,
    arrange: Rect -> Rect,
    dispatch: Event -> bool,
    layoutDirty: bool,
    visuallyDirty: bool)

  /** The size `c` reports when offered `bound`. */
  function Measured(c: DynComponent, bound: Size): Size { c.measure(bound) }
}
