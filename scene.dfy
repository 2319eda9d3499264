/**
 * The scene of `src/scene.rs`: an optional root component, a background
 * colour and a layout-dirty flag.
 *
 * `update_layout` measures the root against the canvas and arranges it in
 * the rect of that measured size centred on the canvas; it clears the flag
 * whether or not there is a root, and it does not look at the flag first.
 * Input goes to the root's dispatch, or is not claimed when there is none.
 */
module Scenes {
  import opened Wrappers
  import opened Geometry
  import opened Input
  import opened Components

  /** The rect `update_layout` hands the root: its measured size, centred on the canvas. */
  function RootFrame(root: DynComponent, canvas: Size): (frame: Rect)
    ensures frame.size == Measured(root, canvas)
    ensures Center(frame) == Center(Rect(PointZero(), canvas))
  {
    AlignCenter(Rect(PointZero(), canvas), Measured(root, canvas))
  }

  /** A root that asks for no more than the canvas is placed wholly on it. */
  lemma RootFrameOnCanvas(root: DynComponent, canvas: Size)
    requires NonNegative(Measured(root, canvas))
    requires Measured(root, canvas).width <= canvas.width && Measured(root, canvas).height <= canvas.height
    ensures Contains(Rect(PointZero(), canvas), RootFrame(root, canvas).pos)
    ensures Contains(Rect(PointZero(), canvas), PointOffset(RootFrame(root, canvas).pos, RootFrame(root, canvas).size))
  {
  }

  /** A root that fills the canvas exactly is placed at the origin. */
  lemma FillingRootAtOrigin(root: DynComponent, canvas: Size)
    requires Measured(root, canvas) == canvas
    ensures RootFrame(root, canvas) == Rect(PointZero(), canvas)
  {
    AlignCenterOwnSize(Rect(PointZero(), canvas));
  }

  class Scene {
    var root: Option<DynComponent>
    var backgroundColor: Color
    var layoutDirty: bool

    /** `Scene::new`: no root, a white background, and a layout still to be done. */
    constructor New()
      ensures root == None && backgroundColor == White && layoutDirty
    {
      root := None;
      backgroundColor := ColorRgb(1.0, 1.0, 1.0);
      layoutDirty := true;
    }

    /** `swap_root`: installs `replacement` and hands back what was there. */
    method SwapRoot(replacement: Option<DynComponent>) returns (previous: Option<DynComponent>)
      modifies this`root
      ensures previous == old(root) && root == replacement
    {
      previous := root;
      root := replacement;
    }

    method SetBackgroundColor(color: Color)
      modifies this`backgroundColor
      ensures backgroundColor == color
    {
      backgroundColor := color;
    }

    function GetBackgroundColor(): Color
      reads this
    {
      backgroundColor
    }

    /**
     * `update_layout`: measure and arrange the root, if any; `handed` is the
     * rect the root was arranged in. The root's own caches are below the
     * view a scene has of it.
     */
    method UpdateLayout(canvas: Size) returns (ghost handed: Option<Rect>)
      modifies this`layoutDirty
      ensures !layoutDirty
      ensures root.None? ==> handed == None
      ensures root.Some? ==> handed == Some(RootFrame(root.value, canvas))
    {
      handed := None;
      match root {
        case Some(r) =>
          var measured := Measured(r, canvas);
          var frame := AlignCenter(Rect(PointZero(), canvas), measured);
          var placed := r.arrange(frame);
          handed := Some(frame);
        case None =>
      }
      layoutDirty := false;
    }

    /** `on_canvas_size_changed`: the new size is not looked at; the layout is marked dirty. */
    method OnCanvasSizeChanged(canvas: Size)
      modifies this`layoutDirty
      ensures layoutDirty
    {
      layoutDirty := true;
    }

    /** The scene's four `on_*` input handlers. */
    function OnInput(e: Event): (claimed: bool)
      reads this
      ensures root.None? ==> !claimed
      ensures root.Some? ==> claimed == root.value.dispatch(e)
    {
      match root
      case Some(r) => r.dispatch(e)
      case None => false
    }
  }

  /**
   * Swapping in `a`, then `b`, then nothing hands back nothing, `a` and `b`
   * in turn, and leaves the flag and the colour alone.
   */
  method SwapSequence(a: DynComponent, b: DynComponent)
    returns (first: Option<DynComponent>, second: Option<DynComponent>, third: Option<DynComponent>,
             dirty: bool, color: Color)
    ensures first == None && second == Some(a) && third == Some(b)
    ensures dirty && color == White
  {
    var s := new Scene.New();
    first := s.SwapRoot(Some(a));
    second := s.SwapRoot(Some(b));
    third := s.SwapRoot(None);
    dirty := s.layoutDirty;
    color := s.GetBackgroundColor();
  }

  /** The background colour set is the colour read back. */
  method BackgroundRoundTrip(color: Color) returns (got: Color)
    ensures got == color
  {
    var s := new Scene.New();
    s.SetBackgroundColor(color);
    got := s.GetBackgroundColor();
  }

  /** A scene without a root claims no input, and laying it out still clears the flag. */
  method EmptySceneLayout(canvas: Size, e: Event) returns (claimed: bool, dirty: bool)
    ensures !claimed && !dirty
  {
    var s := new Scene.New();
    var handed := s.UpdateLayout(canvas);
    claimed := s.OnInput(e);
    dirty := s.layoutDirty;
  }

  /** Once a root is installed, each input event is claimed exactly when the root claims it. */
  method RootedSceneForwards(root: DynComponent, e: Event) returns (claimed: bool)
    ensures claimed == root.dispatch(e)
  {
    var s := new Scene.New();
    var previous := s.SwapRoot(Some(root));
    claimed := s.OnInput(e);
  }
}
