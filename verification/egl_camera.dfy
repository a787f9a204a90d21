/**
 * The integer logic of the camera front end: choosing a preview size,
 * turning the display rotation into a preview orientation, mapping a touch
 * point to a focus rectangle, stepping the zoom and switching cameras.
 */
module Camera {
  import opened Wrappers
  import opened JavaArith
  import opened Landmarks

  /** `CameraInfo.CAMERA_FACING_FRONT`. */
  const CAMERA_FACING_FRONT: int := 1
  /** Largest distance from an aspect ratio that still counts as equal. */
  const ASPECT_TOLERANCE: real := 0.001
  /** Bound of the camera's focus coordinate space, [-1000, 1000] on both axes. */
  const FOCUS_BOUND: int := 1000
  /** Weight given to a touch focus area. */
  const FOCUS_WEIGHT: int := 600

  datatype Size = Size(width: int, height: int)

  /** A rectangle in focus coordinates. */
  datatype Rect = Rect(left: int, top: int, right: int, bottom: int)

  /**
   * What `Camera.getParameters` reports for a newly opened camera: its
   * supported preview and picture sizes, its zoom state and its focus
   * areas (each a rectangle with its weight).
   */
  datatype Parameters = Parameters(previewSizes: seq<Size>, pictureSizes: seq<Size>,
                                   zoomSupported: bool, maxZoom: int, zoom: int,
                                   focusAreas: seq<(Rect, int)>)

  // ---------------------------------------------------------------------
  // Preview size choice
  // ---------------------------------------------------------------------

  /** `s` has the preview's aspect ratio: height over width equals `scale`. */
  predicate AspectMatches(s: Size, scale: real) {
    RealAbs(s.width as real * scale - s.height as real) < ASPECT_TOLERANCE
  }

  function Delta(s: Size, previewWidth: int): nat {
    Abs(previewWidth - s.width)
  }

  /** A size with the right aspect and exactly the preview's width. */
  predicate Exact(s: Size, previewWidth: int, scale: real) {
    AspectMatches(s, scale) && s.width == previewWidth
  }

  /** A size with the right aspect whose width difference beats the initial minimum. */
  predicate Candidate(s: Size, previewWidth: int, scale: real) {
    AspectMatches(s, scale) && Delta(s, previewWidth) < INT_MAX
  }

  /**
   * Position `i` is the size to choose: the first exact size if there is
   * one; otherwise the first candidate with the least width difference;
   * otherwise the first size.
   */
  ghost predicate SuitableAt(sizes: seq<Size>, previewWidth: int, scale: real, i: int) {
    && 0 <= i < |sizes|
    && if exists j :: 0 <= j < |sizes| && Exact(sizes[j], previewWidth, scale) then
         && Exact(sizes[i], previewWidth, scale)
         && forall j :: 0 <= j < i ==> !Exact(sizes[j], previewWidth, scale)
       else if exists j :: 0 <= j < |sizes| && Candidate(sizes[j], previewWidth, scale) then
         && Candidate(sizes[i], previewWidth, scale)
         && forall j :: 0 <= j < |sizes| && Candidate(sizes[j], previewWidth, scale) ==>
              Delta(sizes[i], previewWidth) <= Delta(sizes[j], previewWidth)
              && (j < i ==> Delta(sizes[i], previewWidth) < Delta(sizes[j], previewWidth))
       else i == 0
  }

  /** The choice is determined: at most one position is suitable. */
  lemma SuitableUnique(sizes: seq<Size>, previewWidth: int, scale: real, i: int, k: int)
    requires SuitableAt(sizes, previewWidth, scale, i) && SuitableAt(sizes, previewWidth, scale, k)
    ensures i == k
  {
  }

  // ---------------------------------------------------------------------
  // Display orientation
  // ---------------------------------------------------------------------

  /** Degrees of a display rotation constant (`Surface.ROTATION_0` .. `ROTATION_270` are 0 .. 3). */
  function RotationDegrees(rotation: int): (d: int)
    ensures 0 <= rotation <= 3 ==> d == 90 * rotation
    ensures !(0 <= rotation <= 3) ==> d == 0
  {
    if rotation == 1 then 90 else if rotation == 2 then 180 else if rotation == 3 then 270 else 0
  }

  /**
   * The preview orientation for a camera mounted at `cameraOrientation`
   * degrees on a display rotated by `degrees`; the front camera's result
   * also undoes the mirror.
   */
  function DisplayOrientation(front: bool, cameraOrientation: int, degrees: int): int {
    if front then Rem(360 - Rem(cameraOrientation + degrees, 360), 360)
    else Rem(cameraOrientation - degrees + 360, 360)
  }

  /**
   * For angles in [0, 360) the orientation is an angle in [0, 360). For the
   * back camera it turns the display by the camera's mounting angle less the
   * display rotation; for the front camera it is the mirror of the mounting
   * angle plus the display rotation.
   */
  lemma DisplayOrientationRange(front: bool, cameraOrientation: int, degrees: int)
    requires 0 <= cameraOrientation < 360 && 0 <= degrees < 360
    ensures var r := DisplayOrientation(front, cameraOrientation, degrees);
      && 0 <= r < 360
      && (!front ==> (r + degrees) % 360 == cameraOrientation)
      && (front ==> (r + cameraOrientation + degrees) % 360 == 0)
  {
    var o, d := cameraOrientation, degrees;
    if front {
      var m := Rem(o + d, 360);
      assert m == (o + d) % 360;
      assert 0 <= m < 360;
      assert Rem(360 - m, 360) == (360 - m) % 360;
    } else {
      assert Rem(o - d + 360, 360) == (o - d + 360) % 360;
    }
  }

  // ---------------------------------------------------------------------
  // Focus area
  // ---------------------------------------------------------------------

  /** Maps a view coordinate to focus coordinates: `v * 2000 / size - 1000`. */
  function ToFocus(v: int, size: int): int
    requires size != 0
  {
    Div(v * 2000, size) - FOCUS_BOUND
  }

  /**
   * The focus rectangle for a touch at (x, y) in a `width` x `height` view:
   * a square of half-side `min(width, height) / 8` around the touch,
   * mapped to focus coordinates, its left and top raised to -1000 and its
   * right and bottom lowered to 1000.
   */
  function FocusArea(x: int, y: int, width: int, height: int): (r: Rect)
    requires width != 0 && height != 0
    ensures r.left >= -FOCUS_BOUND && r.top >= -FOCUS_BOUND
    ensures r.right <= FOCUS_BOUND && r.bottom <= FOCUS_BOUND
  {
    var length := Min(width, height) / 8;
    var left := ToFocus(x - length, width);
    var top := ToFocus(y - length, height);
    var right := ToFocus(x + length, width);
    var bottom := ToFocus(y + length, height);
    Rect(if left < -FOCUS_BOUND then -FOCUS_BOUND else left,
         if top < -FOCUS_BOUND then -FOCUS_BOUND else top,
         if right > FOCUS_BOUND then FOCUS_BOUND else right,
         if bottom > FOCUS_BOUND then FOCUS_BOUND else bottom)
  }

  /** `Div(v * 2000, size)` lies in [0, 2000) for a coordinate inside the view. */
  lemma ToFocusInside(v: int, size: int)
    requires 0 <= v < size
    ensures -FOCUS_BOUND <= ToFocus(v, size) < FOCUS_BOUND
  {
    MulNonneg(v, 2000);
    var q := v * 2000 / size;
    assert Div(v * 2000, size) == q;
    assert q >= 0;
    MulMonotone(v, size - 1, 2000);
    assert q * size <= v * 2000 < size * 2000;
    assert (q - 2000) * size == q * size - 2000 * size;
    MulAtLeast(q - 1999, size);
    assert (q - 1999) * size == q * size - 1999 * size;
  }

  /**
   * A touch inside the view gives a rectangle that is not inverted and
   * lies within [-1000, 1000] on both axes.
   */
  lemma FocusAreaInside(x: int, y: int, width: int, height: int)
    requires 0 <= x < width && 0 <= y < height
    ensures var r := FocusArea(x, y, width, height);
      && -FOCUS_BOUND <= r.left <= r.right <= FOCUS_BOUND
      && -FOCUS_BOUND <= r.top <= r.bottom <= FOCUS_BOUND
  {
    var length := Min(width, height) / 8;
    FocusSpanOrdered(x, width, length);
    FocusSpanOrdered(y, height, length);
  }

  /** On one axis, the mapped ends of a span around a point inside the view stay in order. */
  lemma FocusSpanOrdered(v: int, size: int, length: nat)
    requires 0 <= v < size
    ensures ToFocus(v - length, size) <= ToFocus(v + length, size)
    ensures ToFocus(v - length, size) < FOCUS_BOUND && -FOCUS_BOUND <= ToFocus(v + length, size)
  {
    ToFocusInside(v, size);
    MulMonotone(v - length, v, 2000);
    MulMonotone(v, v + length, 2000);
    DivMonotone((v - length) * 2000, v * 2000, size);
    DivMonotone(v * 2000, (v + length) * 2000, size);
  }

  // ---------------------------------------------------------------------
  // Zoom and camera id
  // ---------------------------------------------------------------------

  /** One zoom step: in when below the maximum, otherwise out when above 0. */
  function ZoomStep(zoom: int, maxZoom: int, zoomIn: bool): (r: int)
    ensures 0 <= zoom <= maxZoom ==> 0 <= r <= maxZoom
    ensures zoomIn && zoom < maxZoom ==> r == zoom + 1
    ensures !(zoomIn && zoom < maxZoom) ==> r == (if zoom > 0 then zoom - 1 else zoom)
  {
    if zoomIn && zoom < maxZoom then zoom + 1 else if zoom > 0 then zoom - 1 else zoom
  }

  /** Zooming in at the maximum steps back out by one. */
  lemma ZoomInAtMax(maxZoom: int)
    requires maxZoom > 0
    ensures ZoomStep(maxZoom, maxZoom, true) == maxZoom - 1
  {
  }

  /** Below the maximum, zooming in and then out is the identity; above 0, out then in. */
  lemma ZoomRoundTrip(zoom: int, maxZoom: int)
    ensures 0 <= zoom < maxZoom ==> ZoomStep(ZoomStep(zoom, maxZoom, true), maxZoom, false) == zoom
    ensures 0 < zoom <= maxZoom ==> ZoomStep(ZoomStep(zoom, maxZoom, false), maxZoom, true) == zoom
  {
  }

  /** `id ^ 1` on a 32-bit int: flips the lowest bit. */
  function ToggleId(id: int): (r: int)
    ensures r % 2 != id % 2 && r / 2 == id / 2
  {
    if id % 2 == 0 then id + 1 else id - 1
  }

  /** Toggling swaps the front (1) and back (0) cameras and is its own inverse. */
  lemma ToggleIdInvolution(id: int)
    ensures ToggleId(ToggleId(id)) == id
    ensures ToggleId(0) == 1 && ToggleId(1) == 0
  {
  }

  // ---------------------------------------------------------------------
  // The camera
  // ---------------------------------------------------------------------

  class EGLCamera {
    var cameraId: int
    /** Whether a camera is open. */
    var open: bool
    /** The open camera's facing and mounting angle. */
    var facingFront: bool
    var cameraOrientation: int
    var previewWidth: int
    var previewHeight: int
    /** Height over width of the initial 1280 x 720 preview; fixed. */
    const previewScale: real
    var pictureSize: Option<Size>
    var orientation: int
    var zoomSupported: bool
    var maxZoom: int
    var zoom: int
    /** The focus areas the camera uses. */
    var focusAreas: seq<(Rect, int)>
    /**
     * The focus areas in the parameters read when the camera was
     * configured; a zoom step sends those parameters back to the camera.
     */
    var configuredFocusAreas: seq<(Rect, int)>

    constructor ()
      ensures cameraId == CAMERA_FACING_FRONT && !open
      ensures previewWidth == 1280 && previewHeight == 720
      ensures previewScale * 1280.0 == 720.0
    {
      cameraId := CAMERA_FACING_FRONT;
      open := false;
      facingFront, cameraOrientation := true, 0;
      previewWidth, previewHeight := 1280, 720;
      previewScale := 720.0 / 1280.0;
      pictureSize := None;
      orientation := 0;
      zoomSupported, maxZoom, zoom := false, 0, 0;
      focusAreas, configuredFocusAreas := [], [];
    }

    /**
     * The supported size closest to the preview: the first with the
     * preview's aspect and width, else the first with that aspect and the
     * least width difference, else the first size.
     */
    method GetSuitableSize(sizes: seq<Size>) returns (size: Size)
      requires sizes != []
      ensures exists i :: SuitableAt(sizes, previewWidth, previewScale, i) && size == sizes[i]
    {
      var minDelta := INT_MAX;
      var index := 0;
      ghost var found := false;
      for i := 0 to |sizes|
        invariant forall j :: 0 <= j < i ==> !Exact(sizes[j], previewWidth, previewScale)
        invariant found <==> exists j :: 0 <= j < i && Candidate(sizes[j], previewWidth, previewScale)
        invariant !found ==> index == 0 && minDelta == INT_MAX
        invariant found ==> index < i && Candidate(sizes[index], previewWidth, previewScale)
        invariant found ==> minDelta == Delta(sizes[index], previewWidth)
        invariant found ==> forall j :: 0 <= j < i && Candidate(sizes[j], previewWidth, previewScale) ==>
          minDelta <= Delta(sizes[j], previewWidth) && (j < index ==> minDelta < Delta(sizes[j], previewWidth))
      {
        var s := sizes[i];
        if AspectMatches(s, previewScale) {
          var delta := Abs(previewWidth - s.width);
          if delta == 0 {
            assert SuitableAt(sizes, previewWidth, previewScale, i);
            return s;
          }
          if minDelta > delta {
            minDelta := delta;
            index := i;
            found := true;
          }
        }
      }
      assert SuitableAt(sizes, previewWidth, previewScale, index);
      size := sizes[index];
    }

    /**
     * The configuration `InitConfig` leaves for a camera reporting `p`,
     * starting from preview size `w0` x `h0` and picture size `picture0`:
     * the zoom state and the focus areas are the new camera's, both in the
     * camera and in the parameters kept for zooming; the preview size is the suitable
     * one, and the picture size is chosen against the new preview width.
     * An empty size list raises an error that is caught, and the remaining
     * settings keep their values.
     */
    ghost predicate Configured(p: Parameters, w0: int, h0: int, picture0: Option<Size>)
      reads this`previewWidth, this`previewHeight, this`pictureSize, this`zoomSupported, this`maxZoom, this`zoom
      reads this`focusAreas, this`configuredFocusAreas
    {
      && zoomSupported == p.zoomSupported && maxZoom == p.maxZoom && zoom == p.zoom
      && focusAreas == p.focusAreas && configuredFocusAreas == p.focusAreas
      && (p.previewSizes == [] ==> previewWidth == w0 && previewHeight == h0 && pictureSize == picture0)
      && (p.previewSizes != [] ==>
            exists i :: SuitableAt(p.previewSizes, w0, previewScale, i) && Size(previewWidth, previewHeight) == p.previewSizes[i])
      && (p.previewSizes != [] && p.pictureSizes == [] ==> pictureSize == picture0)
      && (p.previewSizes != [] && p.pictureSizes != [] ==>
            exists i :: SuitableAt(p.pictureSizes, previewWidth, previewScale, i) && pictureSize == Some(p.pictureSizes[i]))
    }

    /**
     * Reads the new camera's parameters, then chooses the preview size and
     * then the picture size (the latter against the new preview width).
     */
    method InitConfig(p: Parameters)
      modifies this`previewWidth, this`previewHeight, this`pictureSize, this`zoomSupported, this`maxZoom, this`zoom
      modifies this`focusAreas, this`configuredFocusAreas
      ensures Configured(p, old(previewWidth), old(previewHeight), old(pictureSize))
    {
      zoomSupported, maxZoom, zoom := p.zoomSupported, p.maxZoom, p.zoom;
      focusAreas, configuredFocusAreas := p.focusAreas, p.focusAreas;
      if p.previewSizes == [] {
        return;
      }
      var preview := GetSuitableSize(p.previewSizes);
      previewWidth, previewHeight := preview.width, preview.height;
      if p.pictureSizes == [] {
        return;
      }
      var picture := GetSuitableSize(p.pictureSizes);
      pictureSize := Some(picture);
    }

    /** Sets the preview orientation from the display rotation. */
    method SetDisplayOrientation(rotation: int)
      modifies this`orientation
      ensures orientation == DisplayOrientation(facingFront, cameraOrientation, RotationDegrees(rotation))
    {
      var degrees := RotationDegrees(rotation);
      var result;
      if facingFront {
        result := Rem(cameraOrientation + degrees, 360);
        result := Rem(360 - result, 360);
      } else {
        result := Rem(cameraOrientation - degrees + 360, 360);
      }
      orientation := result;
    }

    /**
     * Opens camera `cameraId`, whose facing and mounting angle the platform
     * reports, configures it from its parameters `p` and sets the preview
     * orientation.
     */
    method OpenCamera(front: bool, mounting: int, rotation: int, p: Parameters)
      modifies this`open, this`facingFront, this`cameraOrientation, this`orientation
      modifies this`previewWidth, this`previewHeight, this`pictureSize, this`zoomSupported, this`maxZoom, this`zoom
      modifies this`focusAreas, this`configuredFocusAreas
      ensures open && facingFront == front && cameraOrientation == mounting
      ensures Configured(p, old(previewWidth), old(previewHeight), old(pictureSize))
      ensures orientation == DisplayOrientation(front, mounting, RotationDegrees(rotation))
      ensures cameraId == old(cameraId)
    {
      open := true;
      facingFront, cameraOrientation := front, mounting;
      InitConfig(p);
      SetDisplayOrientation(rotation);
    }

    /** Closes the camera and empties the landmark store. */
    method ReleaseCamera(engine: LandmarkEngine)
      requires engine.Valid()
      modifies this`open, engine`keys, engine`faces
      ensures !open && engine.Valid() && engine.Faces() == map[]
    {
      open := false;
      engine.ClearAll();
    }

    /**
     * Switches between the front and the back camera and opens the other
     * one, which reports `front`, `mounting` and `p`.
     */
    method SwitchCamera(engine: LandmarkEngine, front: bool, mounting: int, rotation: int, p: Parameters)
      requires engine.Valid()
      modifies this`cameraId, this`open, this`facingFront, this`cameraOrientation, this`orientation
      modifies this`previewWidth, this`previewHeight, this`pictureSize, this`zoomSupported, this`maxZoom, this`zoom
      modifies this`focusAreas, this`configuredFocusAreas
      modifies engine`keys, engine`faces
      ensures cameraId == ToggleId(old(cameraId)) && open
      ensures facingFront == front && cameraOrientation == mounting
      ensures Configured(p, old(previewWidth), old(previewHeight), old(pictureSize))
      ensures orientation == DisplayOrientation(front, mounting, RotationDegrees(rotation))
      ensures engine.Valid() && engine.Faces() == map[]
    {
      cameraId := ToggleId(cameraId);
      ReleaseCamera(engine);
      OpenCamera(front, mounting, rotation, p);
    }

    /**
     * Focuses on a touch at (x, y) in a `width` x `height` view: with an
     * open camera that supports focus areas, the one focus area becomes
     * the rectangle around the touch.
     */
    method FocusOnPoint(x: int, y: int, width: int, height: int, maxNumFocusAreas: int)
      requires open && maxNumFocusAreas > 0 ==> width != 0 && height != 0
      modifies this`focusAreas
      ensures !open || maxNumFocusAreas <= 0 ==> focusAreas == old(focusAreas)
      ensures open && maxNumFocusAreas > 0 ==> focusAreas == [(FocusArea(x, y, width, height), FOCUS_WEIGHT)]
    {
      if !open {
        return;
      }
      if maxNumFocusAreas > 0 {
        var length := Min(width, height) / 8;
        var left := x - length;
        var top := y - length;
        var right := x + length;
        var bottom := y + length;
        left := ToFocus(left, width);
        top := ToFocus(top, height);
        right := ToFocus(right, width);
        bottom := ToFocus(bottom, height);
        left := if left < -FOCUS_BOUND then -FOCUS_BOUND else left;
        top := if top < -FOCUS_BOUND then -FOCUS_BOUND else top;
        right := if right > FOCUS_BOUND then FOCUS_BOUND else right;
        bottom := if bottom > FOCUS_BOUND then FOCUS_BOUND else bottom;
        focusAreas := [(Rect(left, top, right, bottom), FOCUS_WEIGHT)];
      }
    }

    /**
     * One zoom step, when the camera supports zooming: the kept parameters
     * take the step and are sent back to the camera, whose focus areas
     * become the configured ones again. On a released camera the send
     * raises `NullPointerException`, reported as `thrown`, after the step.
     */
    method HandleZoom(zoomIn: bool) returns (thrown: bool)
      modifies this`zoom, this`focusAreas
      ensures zoom == if zoomSupported then ZoomStep(old(zoom), maxZoom, zoomIn) else old(zoom)
      ensures thrown <==> zoomSupported && !open
      ensures focusAreas == if zoomSupported && open then configuredFocusAreas else old(focusAreas)
    {
      thrown := false;
      if zoomSupported {
        var z := zoom;
        if zoomIn && z < maxZoom {
          z := z + 1;
        } else if z > 0 {
          z := z - 1;
        }
        zoom := z;
        if !open {
          return true;
        }
        focusAreas := configuredFocusAreas;
      }
    }
  }
}
