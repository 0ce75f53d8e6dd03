/**
 * The enhanced crop dialog: a 300 × 300 viewport with a crop box, a live 120-wide
 * preview and the committed output of `outputWidth` × `finalOutputHeight`, all drawn
 * from one transform state (scale, rotation in degrees, pan position).
 *
 * The browser's image element is an `Option<Point>` holding its natural size (`None`
 * before it is available), the availability of a 2D context is a flag, and the
 * conversion of degrees into a rotation matrix is the parameter `turn`.
 */
module EnhancedImageCropper {
  import opened Wrappers
  import opened Transform
  import opened CropControls

  const CanvasSize := 300.0
  /** `canvasSize * 0.8`: the crop box width and the fit-to-frame target. */
  const CropWidth := 240.0
  const PreviewSize := 120.0
  const HandleSize := 8.0
  const MinScale := 0.1
  const MaxScale := 5.0
  const JpegQuality := 0.9

  /** The crop box drawn on the viewport: 240 wide, 240/aspectRatio high, centred. */
  function CropBox(aspectRatio: real): (r: Rect)
    requires aspectRatio > 0.0
    ensures r.width == CropWidth && r.height * aspectRatio == CropWidth
    ensures r.x + r.width / 2.0 == CanvasSize / 2.0 && r.y + r.height / 2.0 == CanvasSize / 2.0
  {
    var h := CropWidth / aspectRatio;
    Rect((CanvasSize - CropWidth) / 2.0, (CanvasSize - h) / 2.0, CropWidth, h)
  }

  /** Top-left, top-right, bottom-left, bottom-right. */
  function Corners(r: Rect): seq<Point>
  {
    [Point(r.x, r.y), Point(r.x + r.width, r.y), Point(r.x, r.y + r.height), Point(r.x + r.width, r.y + r.height)]
  }

  /** An 8 × 8 handle centred on a corner. */
  function Handle(c: Point): (h: Rect)
    ensures h.width == HandleSize && h.height == HandleSize
    ensures h.x + h.width / 2.0 == c.x && h.y + h.height / 2.0 == c.y
  {
    Rect(c.x - HandleSize / 2.0, c.y - HandleSize / 2.0, HandleSize, HandleSize)
  }

  /** The fills the handle loop draws, one per corner, in order. */
  function HandleMarks(cs: seq<Point>): (ms: seq<Mark>)
    ensures |ms| == |cs|
    ensures forall k :: 0 <= k < |cs| ==> ms[k] == Fill(Handle(cs[k]))
  {
    if cs == [] then [] else HandleMarks(cs[..|cs| - 1]) + [Fill(Handle(cs[|cs| - 1]))]
  }

  /** `outputHeight || outputWidth / aspectRatio`: a supplied non-zero height wins, otherwise
      the height follows the aspect ratio. */
  function FinalOutputHeight(outputWidth: real, aspectRatio: real, outputHeight: Option<real>): (h: real)
    requires aspectRatio > 0.0
    ensures outputHeight.Some? && outputHeight.value != 0.0 ==> h == outputHeight.value
    ensures outputHeight.None? || outputHeight.value == 0.0 ==> h * aspectRatio == outputWidth
  {
    if outputHeight.Some? && outputHeight.value != 0.0 then outputHeight.value else outputWidth / aspectRatio
  }

  /** Fit-to-frame: the larger scale at which the whole image fits inside the crop box.
      The image is contained (one side touches the box), not made to cover it. */
  function FitScale(width: real, height: real, aspectRatio: real): (s: real)
    requires width > 0.0 && height > 0.0 && aspectRatio > 0.0
    ensures s > 0.0
    ensures s * width <= CropWidth && s * height <= CropWidth / aspectRatio
    ensures s * width == CropWidth || s * height == CropWidth / aspectRatio
  {
    var sx, sy := CropWidth / width, CropWidth / aspectRatio / height;
    QuotientTimes(CropWidth, width);
    QuotientTimes(CropWidth / aspectRatio, height);
    if sx <= sy then
      MulLeq(sx, sy, height);
      sx
    else
      MulLeq(sy, sx, width);
      sy
  }

  lemma QuotientTimes(a: real, b: real)
    requires a > 0.0 && b > 0.0
    ensures a / b > 0.0 && (a / b) * b == a
  {
  }

  lemma MulLeq(a: real, b: real, c: real)
    requires a <= b && c > 0.0
    ensures a * c <= b * c
  {
    assert b * c - a * c == (b - a) * c;
  }

  /** A wide image fitted to a square box is contained with a gap above and below:
      fit-to-frame does not cover the box. */
  lemma FitLeavesGap()
    ensures FitScale(800.0, 400.0, 1.0) == 0.3
    ensures FitScale(800.0, 400.0, 1.0) * 400.0 < CropWidth
  {
  }

  class EnhancedCropper {
    const aspectRatio: real
    const outputWidth: real
    const outputHeight: Option<real>
    /** The on-screen canvas (`canvasRef`). */
    const viewport: Canvas

    var scale: real
    var rotation: real
    var position: Point
    var isDragging: bool
    var dragStart: Point
    var imageLoaded: bool
    var imageDimensions: Point
    var cropPreview: Option<DataUrl>
    /** The images handed to `onCropComplete`, in order. */
    var completed: seq<DataUrl>

    /** Scale stays positive, rotation stays on the 15-degree grid. */
    predicate Valid()
      reads this
    {
      aspectRatio > 0.0 && scale > 0.0 && WholeSteps(rotation)
    }

    /** Mounting the dialog: prop defaults aspectRatio 1 and outputWidth 400. */
    constructor (aspectRatio: Option<real>, outputWidth: Option<real>, outputHeight: Option<real>)
      requires aspectRatio.GetOr(1.0) > 0.0
      ensures this.aspectRatio == aspectRatio.GetOr(1.0) && this.outputWidth == outputWidth.GetOr(400.0)
      ensures this.outputHeight == outputHeight
      ensures Valid()
      ensures scale == 1.0 && rotation == 0.0 && position == Point(0.0, 0.0)
      ensures !isDragging && dragStart == Point(0.0, 0.0) && !imageLoaded
      ensures imageDimensions == Point(0.0, 0.0) && cropPreview == None && completed == []
      ensures fresh(viewport) && viewport.width == 300 && viewport.height == 300
      ensures viewport.draws == [] && viewport.marks == []
    {
      this.aspectRatio := aspectRatio.GetOr(1.0);
      this.outputWidth := outputWidth.GetOr(400.0);
      this.outputHeight := outputHeight;
      viewport := new Canvas(CanvasSize, CanvasSize);
      scale, rotation, position := 1.0, 0.0, Point(0.0, 0.0);
      isDragging, dragStart, imageLoaded := false, Point(0.0, 0.0), false;
      imageDimensions, cropPreview, completed := Point(0.0, 0.0), None, [];
      new;
      assert WholeSteps(0.0) by {
        FloorOfWhole(0);
      }
    }

    function CurrentView(turn: real -> Linear): View
      reads this`scale, this`rotation, this`position
    {
      View(scale, turn(rotation), position)
    }

    function OutputHeight(): real
      requires aspectRatio > 0.0
    {
      FinalOutputHeight(outputWidth, aspectRatio, outputHeight)
    }

    function PreviewCentre(): Point
      requires aspectRatio > 0.0
    {
      Point(PreviewSize / 2.0, PreviewSize / aspectRatio / 2.0)
    }

    function OutputCentre(): Point
      requires aspectRatio > 0.0
    {
      Point(outputWidth / 2.0, OutputHeight() / 2.0)
    }

    method ZoomOutButton()
      requires Valid()
      modifies this`scale
      ensures Valid() && scale == ZoomOut(old(scale), MinScale)
      ensures MinScale <= old(scale) <= MaxScale ==> MinScale <= scale <= old(scale)
    {
      scale := ZoomOut(scale, MinScale);
    }

    method ZoomInButton()
      requires Valid()
      modifies this`scale
      ensures Valid() && scale == ZoomIn(old(scale), MaxScale)
      ensures MinScale <= old(scale) <= MaxScale ==> old(scale) <= scale <= MaxScale
    {
      scale := ZoomIn(scale, MaxScale);
    }

    /** The zoom slider only produces values in [0.1, 5]. */
    method SlideScale(value: real)
      requires Valid() && MinScale <= value <= MaxScale
      modifies this`scale
      ensures Valid() && scale == value
    {
      scale := value;
    }

    method RotateLeft()
      requires Valid()
      modifies this`rotation
      ensures Valid() && rotation == old(rotation) - RotationStep
    {
      RotateKeepsSteps(rotation, -RotationStep);
      rotation := rotation - RotationStep;
    }

    method RotateRight()
      requires Valid()
      modifies this`rotation
      ensures Valid() && rotation == old(rotation) + RotationStep
    {
      RotateKeepsSteps(rotation, RotationStep);
      rotation := rotation + RotationStep;
    }

    /** The rotation slider only produces multiples of 15 in [-180, 180]. */
    method SlideRotation(value: real)
      requires Valid() && -180.0 <= value <= 180.0 && WholeSteps(value)
      modifies this`rotation
      ensures Valid() && rotation == value
    {
      rotation := value;
    }

    method ResetTransform()
      requires Valid()
      modifies this`scale, this`rotation, this`position
      ensures Valid() && scale == 1.0 && rotation == 0.0 && position == Point(0.0, 0.0)
    {
      FloorOfWhole(0);
      scale, rotation, position := 1.0, 0.0, Point(0.0, 0.0);
    }

    /** `fitToFrame`: nothing without an image; otherwise the image is fitted inside the
        crop box (the scale is not clamped to the slider range), centred and unrotated. */
    method FitToFrame(img: Option<Point>)
      requires Valid()
      requires img.Some? ==> img.value.x > 0.0 && img.value.y > 0.0
      modifies this`scale, this`rotation, this`position
      ensures Valid()
      ensures img.None? ==> scale == old(scale) && rotation == old(rotation) && position == old(position)
      ensures img.Some? ==>
        && scale * img.value.x <= CropWidth && scale * img.value.y <= CropWidth / aspectRatio
        && (scale * img.value.x == CropWidth || scale * img.value.y == CropWidth / aspectRatio)
        && rotation == 0.0 && position == Point(0.0, 0.0)
    {
      if img.None? {
        return;
      }
      FloorOfWhole(0);
      scale := FitScale(img.value.x, img.value.y, aspectRatio);
      position := Point(0.0, 0.0);
      rotation := 0.0;
    }

    /** The image element finished loading: remember its size and mark it loaded (the
        delayed fit that follows is a separate `FitToFrame` call). */
    method HandleImageLoad(img: Option<Point>)
      modifies this`imageDimensions, this`imageLoaded
      ensures img.None? ==> imageDimensions == old(imageDimensions) && imageLoaded == old(imageLoaded)
      ensures img.Some? ==> imageDimensions == img.value && imageLoaded
    {
      if img.Some? {
        imageDimensions := img.value;
        imageLoaded := true;
      }
    }

    method MouseDown(pointer: Point)
      modifies this`isDragging, this`dragStart
      ensures isDragging && dragStart == DragAnchor(pointer, position)
    {
      isDragging := true;
      dragStart := DragAnchor(pointer, position);
    }

    method MouseMove(pointer: Point)
      modifies this`position
      ensures old(isDragging) ==> position == DraggedPosition(pointer, dragStart)
      ensures !old(isDragging) ==> position == old(position)
    {
      if !isDragging {
        return;
      }
      position := DraggedPosition(pointer, dragStart);
    }

    /** Mouse-up and mouse-leave both end the drag. */
    method MouseUp()
      modifies this`isDragging
      ensures !isDragging
    {
      isDragging := false;
    }

    /** `drawCanvas`: reset the viewport to 300 × 300, render the image about its centre,
        stroke the crop box and fill its four corner handles. */
    method DrawCanvas(img: Option<Point>, hasContext: bool, turn: real -> Linear)
      requires Valid()
      modifies viewport
      ensures img.None? || !imageLoaded || !hasContext ==> unchanged(viewport)
      ensures img.Some? && imageLoaded && hasContext ==>
        && viewport.width == 300 && viewport.height == 300
        && viewport.ctm == Identity && viewport.saved == []
        && viewport.draws == [Draw(Placement(Point(150.0, 150.0), CurrentView(turn)),
                                   Times(-0.5, img.value), img.value.x, img.value.y)]
        && viewport.marks == [Stroke(CropBox(aspectRatio))] + HandleMarks(Corners(CropBox(aspectRatio)))
    {
      if img.None? || !imageLoaded || !hasContext {
        return;
      }
      viewport.Resize(CanvasSize, CanvasSize);
      RenderCentred(viewport, Point(CanvasSize / 2.0, CanvasSize / 2.0), CurrentView(turn), img.value);
      var box := CropBox(aspectRatio);
      viewport.StrokeRect(box);
      var corners := Corners(box);
      assert corners[..0] == [];
      for k := 0 to |corners|
        invariant viewport.marks == [Stroke(box)] + HandleMarks(corners[..k])
        invariant viewport.width == 300 && viewport.height == 300
        invariant viewport.ctm == Identity && viewport.saved == []
        invariant viewport.draws == [Draw(Placement(Point(150.0, 150.0), CurrentView(turn)),
                                          Times(-0.5, img.value), img.value.x, img.value.y)]
      {
        assert corners[..k + 1][..k] == corners[..k];
        viewport.FillRect(Handle(corners[k]));
      }
      assert corners[..|corners|] == corners;
    }

    /** `generatePreview`: a 120-wide canvas of the crop's aspect, rendered with the same
        transform about its own centre and encoded as JPEG at quality 0.9. */
    method GeneratePreview(img: Option<Point>, hasContext: bool, turn: real -> Linear)
      requires Valid()
      modifies this`cropPreview
      ensures img.None? || !hasContext ==> cropPreview == old(cropPreview)
      ensures img.Some? && hasContext ==>
        cropPreview == Some(DataUrl("image/jpeg", JpegQuality, 120, (PreviewSize / aspectRatio).Floor,
          [Draw(Placement(PreviewCentre(), CurrentView(turn)), Times(-0.5, img.value), img.value.x, img.value.y)]))
    {
      if img.None? {
        return;
      }
      var preview := new Canvas(300.0, 150.0);
      if !hasContext {
        return;
      }
      preview.Resize(PreviewSize, PreviewSize / aspectRatio);
      var view := CurrentView(turn);
      RenderCentred(preview, PreviewCentre(), view, img.value);
      assert preview.draws == [Draw(Placement(PreviewCentre(), view), Times(-0.5, img.value), img.value.x, img.value.y)];
      var url := preview.ToDataUrl("image/jpeg", JpegQuality);
      cropPreview := Some(url);
    }

    /** `handleCrop`: one `outputWidth` × `finalOutputHeight` JPEG (quality 0.9) rendered
        about the output's centre with the unchanged scale, passed to `onCropComplete`;
        nothing when the image or the context is missing. */
    method HandleCrop(img: Option<Point>, hasContext: bool, turn: real -> Linear)
      requires Valid()
      modifies this`completed
      ensures img.None? || !hasContext ==> completed == old(completed)
      ensures img.Some? && hasContext ==>
        completed == old(completed) + [DataUrl("image/jpeg", JpegQuality, outputWidth.Floor, OutputHeight().Floor,
          [Draw(Placement(OutputCentre(), CurrentView(turn)), Times(-0.5, img.value), img.value.x, img.value.y)])]
    {
      if img.None? {
        return;
      }
      var output := new Canvas(300.0, 150.0);
      if !hasContext {
        return;
      }
      output.Resize(outputWidth, OutputHeight());
      var view := CurrentView(turn);
      RenderCentred(output, OutputCentre(), view, img.value);
      assert output.draws == [Draw(Placement(OutputCentre(), view), Times(-0.5, img.value), img.value.x, img.value.y)];
      var url := output.ToDataUrl("image/jpeg", JpegQuality);
      completed := completed + [url];
    }

    /** The crop as the dialog presents it: the same render with the scale multiplied by
        outputWidth / 240, so that the output shows exactly the crop box's content. */
    method HandleCropFramed(img: Option<Point>, hasContext: bool, turn: real -> Linear)
      requires Valid()
      modifies this`completed
      ensures img.None? || !hasContext ==> completed == old(completed)
      ensures img.Some? && hasContext ==>
        completed == old(completed) + [DataUrl("image/jpeg", JpegQuality, outputWidth.Floor, OutputHeight().Floor,
          [Draw(Placement(OutputCentre(), FramedView(CurrentView(turn), outputWidth)),
                Times(-0.5, img.value), img.value.x, img.value.y)])]
    {
      if img.None? {
        return;
      }
      var output := new Canvas(300.0, 150.0);
      if !hasContext {
        return;
      }
      output.Resize(outputWidth, OutputHeight());
      var view := FramedView(CurrentView(turn), outputWidth);
      RenderCentred(output, OutputCentre(), view, img.value);
      assert output.draws == [Draw(Placement(OutputCentre(), view), Times(-0.5, img.value), img.value.x, img.value.y)];
      var url := output.ToDataUrl("image/jpeg", JpegQuality);
      completed := completed + [url];
    }
  }

  /** The view of the viewport, magnified so that the crop box's width fills `targetWidth`. */
  function FramedView(v: View, targetWidth: real): View
  {
    View(targetWidth / CropWidth * v.scale, v.rotation, v.position)
  }

  /** Every render centres the same source point: the image centre minus the pan position
      lands on the viewport centre, the preview centre and the output centre alike. */
  lemma RendersShareCentre(v: View, size: Point, aspectRatio: real, outputWidth: real, outputHeight: Option<real>)
    requires aspectRatio > 0.0
    ensures var src := Minus(Times(0.5, size), v.position);
      var preview := Point(PreviewSize / 2.0, PreviewSize / aspectRatio / 2.0);
      var output := Point(outputWidth / 2.0, FinalOutputHeight(outputWidth, aspectRatio, outputHeight) / 2.0);
      && CanvasPointOf(Point(150.0, 150.0), v, size, src) == Point(150.0, 150.0)
      && CanvasPointOf(preview, v, size, src) == preview
      && CanvasPointOf(output, v, size, src) == output
  {
    CentreShowsPannedImageCentre(Point(150.0, 150.0), v, size);
    CentreShowsPannedImageCentre(Point(PreviewSize / 2.0, PreviewSize / aspectRatio / 2.0), v, size);
    CentreShowsPannedImageCentre(Point(outputWidth / 2.0, FinalOutputHeight(outputWidth, aspectRatio, outputHeight) / 2.0), v, size);
  }

  /** As written, the output is rendered at the viewport's scale, so without rotation its
      left edge shows the source point outputWidth/(2 scale) left of the centre point while
      the crop box's left edge shows the point 120/scale left of it: unless the output is
      240 wide, the committed image frames a different region from the crop box. */
  lemma {:induction false} OutputFramingDiffersFromCropBox(s: real, pos: Point, size: Point, outputWidth: real, outputHeight: real)
    requires s > 0.0 && outputWidth != CropWidth
    ensures var v := View(s, LinearIdentity, pos);
      var c := Minus(Times(0.5, size), pos);
      var boxLeft := Point(c.x - CropWidth / (2.0 * s), c.y);
      var outLeft := Point(c.x - outputWidth / (2.0 * s), c.y);
      && CanvasPointOf(Point(150.0, 150.0), v, size, boxLeft) == Point(30.0, 150.0)
      && CanvasPointOf(Point(outputWidth / 2.0, outputHeight / 2.0), v, size, outLeft) == Point(0.0, outputHeight / 2.0)
      && boxLeft != outLeft
  {
    CanvasSpansWidthOverScale(CanvasSize, CanvasSize, s, pos, size);
    CanvasSpansWidthOverScale(outputWidth, outputHeight, s, pos, size);
    var v := View(s, LinearIdentity, pos);
    var c := Minus(Times(0.5, size), pos);
    var centre := Point(150.0, 150.0);
    var boxLeft := Point(c.x - CropWidth / (2.0 * s), c.y);
    PlacementClosedForm(centre, v, Minus(boxLeft, Times(0.5, size)));
    assert s * (CropWidth / (2.0 * s)) == CropWidth / 2.0;
  }

  /** With the framed render every source point lands on the output at the offset from
      the output centre that it has from the viewport centre, magnified by
      outputWidth/240; when the output keeps the crop's aspect ratio the crop box's
      top-left and bottom-right corners become the output's corners. */
  lemma {:induction false} FramedOutputMatchesCropBox(v: View, size: Point, src: Point, aspectRatio: real, outputWidth: real)
    requires aspectRatio > 0.0
    ensures var k := outputWidth / CropWidth;
      var outCentre := Point(outputWidth / 2.0, outputWidth / aspectRatio / 2.0);
      var viewCentre := Point(150.0, 150.0);
      && Minus(CanvasPointOf(outCentre, FramedView(v, outputWidth), size, src), outCentre)
         == Times(k, Minus(CanvasPointOf(viewCentre, v, size, src), viewCentre))
      && Plus(outCentre, Times(k, Minus(Corners(CropBox(aspectRatio))[0], viewCentre))) == Point(0.0, 0.0)
      && Plus(outCentre, Times(k, Minus(Corners(CropBox(aspectRatio))[3], viewCentre)))
         == Point(outputWidth, outputWidth / aspectRatio)
  {
    FramedOffset(v, size, src, aspectRatio, outputWidth);
    FramedCorners(aspectRatio, outputWidth);
  }

  /** The framed render magnifies offsets from the centre by outputWidth/240. */
  lemma FramedOffset(v: View, size: Point, src: Point, aspectRatio: real, outputWidth: real)
    requires aspectRatio > 0.0
    ensures var outCentre := Point(outputWidth / 2.0, outputWidth / aspectRatio / 2.0);
      Minus(CanvasPointOf(outCentre, FramedView(v, outputWidth), size, src), outCentre)
      == Times(outputWidth / CropWidth, Minus(CanvasPointOf(Point(150.0, 150.0), v, size, src), Point(150.0, 150.0)))
  {
    var k := outputWidth / CropWidth;
    var outCentre := Point(outputWidth / 2.0, outputWidth / aspectRatio / 2.0);
    RescaledPlacement(Point(150.0, 150.0), outCentre, v, k, Minus(src, Times(0.5, size)));
    assert FramedView(v, outputWidth) == View(k * v.scale, v.rotation, v.position);
  }

  /** Magnified about the output centre, the crop box's corners become the output's. */
  lemma FramedCorners(aspectRatio: real, outputWidth: real)
    requires aspectRatio > 0.0
    ensures var k := outputWidth / CropWidth;
      var outCentre := Point(outputWidth / 2.0, outputWidth / aspectRatio / 2.0);
      var box := CropBox(aspectRatio);
      && Plus(outCentre, Times(k, Minus(Point(box.x, box.y), Point(150.0, 150.0)))) == Point(0.0, 0.0)
      && Plus(outCentre, Times(k, Minus(Point(box.x + box.width, box.y + box.height), Point(150.0, 150.0))))
         == Point(outputWidth, outputWidth / aspectRatio)
  {
    var k := outputWidth / CropWidth;
    var box := CropBox(aspectRatio);
    var h := CropWidth / aspectRatio;
    assert box.y == 150.0 - h / 2.0;
    assert k * (h / 2.0) == outputWidth / aspectRatio / 2.0 by {
      FramedHalfHeight(outputWidth, aspectRatio, k, h);
    }
  }

  lemma FramedHalfHeight(w: real, a: real, k: real, h: real)
    requires a > 0.0 && k == w / CropWidth && h == CropWidth / a
    ensures k * (h / 2.0) == w / a / 2.0
  {
    assert k * h == (w / CropWidth) * (CropWidth / a);
  }
}
