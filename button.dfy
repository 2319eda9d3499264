/**
 * The button control of `src/controls/button.rs`.
 *
 * A button measures to the space its sizing offers and is arranged exactly
 * in the frame it is given, moving its background rectangle there. Labels
 * and actions are accepted by the builder and dropped.
 */
module Buttons {
  import opened Geometry
  import opened Components

  /** The derived `Default` of the builder: `Sizing`'s derived default (fill) and `Color::default()`. */
  datatype ButtonBuilder = ButtonBuilder(sizing: Sizing, background: Color)

  /** `Button::builder()`. */
  function NewButtonBuilder(): (b: ButtonBuilder)
    ensures b.sizing == SizingFill() && b.background == ColorDefault()
  {
    ButtonBuilder(SizingTraitDefault(), ColorDefault())
  }

  /** `with_label`: the text is dropped. */
  function WithLabel(b: ButtonBuilder, text: string): (r: ButtonBuilder)
    ensures r == b
  {
    b
  }

  /** `with_action`: the callback is dropped. */
  function WithAction<A>(b: ButtonBuilder, action: A): (r: ButtonBuilder)
    ensures r == b
  {
    b
  }

  function WithBackground(b: ButtonBuilder, color: Color): (r: ButtonBuilder)
    ensures r.background == color && r.sizing == b.sizing
  {
    b.(background := color)
  }

  /** `with_width`: only the desired width changes; its bounds and the height stay. */
  function WithWidth(b: ButtonBuilder, width: Length): (r: ButtonBuilder)
    ensures r.sizing.width == Dimension(width, b.sizing.width.min, b.sizing.width.max)
    ensures r.sizing.height == b.sizing.height && r.background == b.background
  {
    b.(sizing := b.sizing.(width := b.sizing.width.(desired := width)))
  }

  /** `with_height`: only the desired height changes; its bounds and the width stay. */
  function WithHeight(b: ButtonBuilder, height: Length): (r: ButtonBuilder)
    ensures r.sizing.height == Dimension(height, b.sizing.height.min, b.sizing.height.max)
    ensures r.sizing.width == b.sizing.width && r.background == b.background
  {
    b.(sizing := b.sizing.(height := b.sizing.height.(desired := height)))
  }

  /** A builder chain of the kind the examples use: a label, a fixed width and a fixed height. */
  lemma FixedButtonFromDefaults(w: real, h: real, text: string)
    ensures WithHeight(WithWidth(WithLabel(NewButtonBuilder(), text), Fixed(w)), Fixed(h)).sizing ==
            Sizing(Dimension(Fixed(w), F32Min, F32Max), Dimension(Fixed(h), F32Min, F32Max))
  {
  }

  /** The background visual: the rect and colour last uploaded for it. */
  datatype Rectangle = Rectangle(rect: Rect, color: Color)

  class Button {
    const sizing: Sizing
    const backgroundColor: Color
    var background: Rectangle

    /** `ButtonBuilder::build`: the background starts at the default rect. */
    constructor Build(b: ButtonBuilder)
      ensures sizing == b.sizing && backgroundColor == b.background
      ensures background == Rectangle(RectDefault(), b.background)
    {
      sizing := b.sizing;
      backgroundColor := b.background;
      background := Rectangle(RectDefault(), b.background);
    }

    /** `measure`: the offered space, with no content size involved. */
    function Measure(available: Size): Size
    {
      CalcAvailableSize(sizing, available)
    }

    /** `arrange`: the background moves to the frame, which is returned as it came. */
    method Arrange(frame: Rect) returns (r: Rect)
      modifies this`background
      ensures r == frame && background == Rectangle(frame, backgroundColor)
    {
      background := Rectangle(frame, backgroundColor);
      r := frame;
    }
  }

  /**
   * What a button reports lies within its bounds on fit and fill axes and is
   * its pixels on fixed axes, and measuring again with the reported size
   * reports the same size.
   */
  lemma ButtonMeasureSettles(b: Button, available: Size)
    ensures !b.sizing.width.desired.Fixed? && BoundsOrdered(b.sizing.width) ==>
      b.sizing.width.min <= b.Measure(available).width <= b.sizing.width.max
    ensures !b.sizing.height.desired.Fixed? && BoundsOrdered(b.sizing.height) ==>
      b.sizing.height.min <= b.Measure(available).height <= b.sizing.height.max
    ensures b.sizing.width.desired.Fixed? ==> b.Measure(available).width == b.sizing.width.desired.pixels
    ensures b.sizing.height.desired.Fixed? ==> b.Measure(available).height == b.sizing.height.desired.pixels
    ensures b.Measure(b.Measure(available)) == b.Measure(available)
  {
    AvailableIdempotent(b.sizing, available);
  }

  /** A button built from the builder defaults fills whatever it is offered. */
  method DefaultButtonFills(available: Size) returns (r: Size)
    ensures r == Size(Clamp(available.width, F32Min, F32Max), Clamp(available.height, F32Min, F32Max))
  {
    var button := new Button.Build(NewButtonBuilder());
    r := button.Measure(available);
  }
}
