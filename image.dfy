/**
 * The image control of `src/controls/image.rs`.
 *
 * An image measures to the space its sizing offers, whatever the pixel size
 * of its texture, and is arranged as a rect of that size centred in the
 * frame it is given; arranging creates the visual that drawing needs.
 * Decoding the source and uploading the texture are not part of this model.
 */
module Images {
  import opened Wrappers
  import opened Geometry
  import opened Input
  import opened Components

  datatype ImageSource = File(path: string) | Bytes(bytes: seq<bv8>)

  datatype ImageBuilder = ImageBuilder(source: ImageSource, sizing: Sizing)

  /** `Image::from_file`: the inherent `Sizing::default()`, fit on both axes. */
  function FromFile(path: string): (b: ImageBuilder)
    ensures b.source == File(path) && b.sizing == SizingFit()
  {
    ImageBuilder(File(path), SizingDefault())
  }

  /** `Image::from_bytes`: likewise fit on both axes. */
  function FromBytes(bytes: seq<bv8>): (b: ImageBuilder)
    ensures b.source == Bytes(bytes) && b.sizing == SizingFit()
  {
    ImageBuilder(Bytes(bytes), SizingDefault())
  }

  function WithSizing(b: ImageBuilder, s: Sizing): (r: ImageBuilder)
    ensures r.sizing == s && r.source == b.source
  {
    b.(sizing := s)
  }

  /** What `measure` returns: the offered space resolved with itself as the requirement. */
  function ImageSize(s: Sizing, available: Size): Size
  {
    var offered := CalcAvailableSize(s, available);
    CalcFinalSize(s, offered, offered)
  }

  /**
   * Resolving the offered space again changes nothing, so an image reports
   * exactly the space its sizing offers: for a fit or fill axis the clamped
   * available space, for a fixed axis its pixels.
   */
  lemma ImageSizeIsOffered(s: Sizing, available: Size)
    ensures ImageSize(s, available) == CalcAvailableSize(s, available)
  {
    var offered := CalcAvailableSize(s, available);
    AvailableIdempotent(s, available);
    assert CalcFinalSize(s, offered, offered).width == AvailableAxis(s.width, offered.width);
    assert CalcFinalSize(s, offered, offered).height == AvailableAxis(s.height, offered.height);
  }

  /** The failure of `draw` before any `arrange`: the visual is still `None` and is unwrapped. */
  datatype DrawError = NotArranged

  class Image {
    const sizing: Sizing
    /** The rect of the visual that `arrange` creates. */
    var visual: Option<Rect>
    var finalSize: Size

    /** `ImageBuilder::build`: no visual yet, and a zero cached size. */
    constructor Build(b: ImageBuilder)
      ensures sizing == b.sizing && visual == None && finalSize == SizeZero()
    {
      sizing := b.sizing;
      visual := None;
      finalSize := SizeZero();
    }

    /** `measure`, which caches what it returns. */
    method Measure(available: Size) returns (r: Size)
      modifies this`finalSize
      ensures r == CalcAvailableSize(sizing, available) && finalSize == r
    {
      var offered := CalcAvailableSize(sizing, available);
      r := CalcFinalSize(sizing, offered, offered);
      ImageSizeIsOffered(sizing, available);
      finalSize := r;
    }

    /** `arrange`: the measured size, centred in `frame`, becomes the visual and is returned. */
    method Arrange(frame: Rect) returns (r: Rect)
      modifies this`visual
      ensures r.size == finalSize && Center(r) == Center(frame)
      ensures visual == Some(r)
    {
      r := AlignCenter(frame, finalSize);
      visual := Some(r);
    }

    /** `draw`: what is handed to the drawing context, or the failed unwrap. */
    function Draw(): (r: Result<Rect, DrawError>)
      reads this
      ensures r.Err? <==> visual.None?
      ensures r.Ok? ==> r.value == visual.value
    {
      match visual
      case Some(v) => Ok(v)
      case None => Err(NotArranged)
    }

    /** The default handlers are all an image has, so it claims no input. */
    function Dispatch(e: Event): (d: Dispatched<Phase>)
      ensures !d.claimed
    {
      DefaultDispatch(DefaultHandlers(), e)
    }
  }

  /** A freshly built image cannot be drawn; once measured and arranged, it draws its centred rect. */
  method DrawOnlyAfterArrange(b: ImageBuilder, available: Size, frame: Rect)
    returns (before: Result<Rect, DrawError>, after: Result<Rect, DrawError>)
    ensures before == Err(NotArranged)
    ensures after == Ok(AlignCenter(frame, CalcAvailableSize(b.sizing, available)))
  {
    var image := new Image.Build(b);
    before := image.Draw();
    var measured := image.Measure(available);
    var placed := image.Arrange(frame);
    after := image.Draw();
  }
}
