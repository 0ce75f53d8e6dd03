/**
 * The simple crop dialog: zoom in [0.5, 3], rotation in 15-degree steps, drag-panning
 * and a 400-wide output. Its canvas drawing routine is never invoked, so only the
 * overlay rectangle it would stroke is modelled, as a function.
 */
module ImageCropper {
  import opened Wrappers
  import opened Transform
  import opened CropControls

  const CanvasSize := 300.0
  const CropSize := 240.0
  const OutputSize := 400.0
  const MinScale := 0.5
  const MaxScale := 3.0
  const JpegQuality := 0.9

  /** The overlay rectangle: at (30, 30), 240 × 240/aspectRatio. It is centred
      horizontally; its top edge ignores the aspect ratio. */
  function Overlay(aspectRatio: real): (r: Rect)
    requires aspectRatio > 0.0
    ensures r.x == r.y == 30.0 && r.width == CropSize && r.height * aspectRatio == CropSize
    ensures r.x + r.width / 2.0 == CanvasSize / 2.0
  {
    var cropX := (CanvasSize - CropSize) / 2.0;
    var cropY := (CanvasSize - CropSize) / 2.0;
    Rect(cropX, cropY, CropSize, CropSize / aspectRatio)
  }

  /** The overlay is vertically centred exactly when the aspect ratio is 1. */
  lemma OverlayCentredOnlyWhenSquare(aspectRatio: real)
    requires aspectRatio > 0.0
    ensures var r := Overlay(aspectRatio);
      r.y + r.height / 2.0 == CanvasSize / 2.0 <==> aspectRatio == 1.0
  {
    var r := Overlay(aspectRatio);
    if r.y + r.height / 2.0 == CanvasSize / 2.0 {
      assert r.height == CropSize;
    }
  }

  class Cropper {
    const aspectRatio: real

    var scale: real
    var rotation: real
    var position: Point
    var isDragging: bool
    var dragStart: Point
    var imageLoaded: bool
    /** The images handed to `onCropComplete`, in order. */
    var completed: seq<DataUrl>

    predicate Valid()
      reads this
    {
      aspectRatio > 0.0 && scale > 0.0 && WholeSteps(rotation)
    }

    /** Mounting the dialog: aspectRatio defaults to 1. */
    constructor (aspectRatio: Option<real>)
      requires aspectRatio.GetOr(1.0) > 0.0
      ensures this.aspectRatio == aspectRatio.GetOr(1.0) && Valid()
      ensures scale == 1.0 && rotation == 0.0 && position == Point(0.0, 0.0)
      ensures !isDragging && dragStart == Point(0.0, 0.0) && !imageLoaded && completed == []
    {
      this.aspectRatio := aspectRatio.GetOr(1.0);
      scale, rotation, position := 1.0, 0.0, Point(0.0, 0.0);
      isDragging, dragStart, imageLoaded, completed := false, Point(0.0, 0.0), false, [];
      new;
      FloorOfWhole(0);
    }

    function CurrentView(turn: real -> Linear): View
      reads this`scale, this`rotation, this`position
    {
      View(scale, turn(rotation), position)
    }

    method ZoomOutButton()
      requires Valid()
      modifies this`scale
      ensures Valid() && scale == ZoomOut(old(scale), MinScale)
      ensures MinScale <= old(scale) <= MaxScale ==> MinScale <= scale <= old(scale)
    {
      scale := ZoomOut(scale, MinScale);
    }

    method ZoomInButton()
      requires Valid()
      modifies this`scale
      ensures Valid() && scale == ZoomIn(old(scale), MaxScale)
      ensures MinScale <= old(scale) <= MaxScale ==> old(scale) <= scale <= MaxScale
    {
      scale := ZoomIn(scale, MaxScale);
    }

    /** The zoom slider only produces values in [0.5, 3]. */
    method SlideScale(value: real)
      requires Valid() && MinScale <= value <= MaxScale
      modifies this`scale
      ensures Valid() && scale == value
    {
      scale := value;
    }

    method RotateLeft()
      requires Valid()
      modifies this`rotation
      ensures Valid() && rotation == old(rotation) - RotationStep
    {
      RotateKeepsSteps(rotation, -RotationStep);
      rotation := rotation - RotationStep;
    }

    method RotateRight()
      requires Valid()
      modifies this`rotation
      ensures Valid() && rotation == old(rotation) + RotationStep
    {
      RotateKeepsSteps(rotation, RotationStep);
      rotation := rotation + RotationStep;
    }

    /** The rotation slider only produces multiples of 15 in [-180, 180]. */
    method SlideRotation(value: real)
      requires Valid() && -180.0 <= value <= 180.0 && WholeSteps(value)
      modifies this`rotation
      ensures Valid() && rotation == value
    {
      rotation := value;
    }

    method ResetTransform()
      requires Valid()
      modifies this`scale, this`rotation, this`position
      ensures Valid() && scale == 1.0 && rotation == 0.0 && position == Point(0.0, 0.0)
    {
      FloorOfWhole(0);
      scale, rotation, position := 1.0, 0.0, Point(0.0, 0.0);
    }

    method HandleImageLoad()
      modifies this`imageLoaded
      ensures imageLoaded
    {
      imageLoaded := true;
    }

    method MouseDown(pointer: Point)
      modifies this`isDragging, this`dragStart
      ensures isDragging && dragStart == DragAnchor(pointer, position)
    {
      isDragging := true;
      dragStart := DragAnchor(pointer, position);
    }

    method MouseMove(pointer: Point)
      modifies this`position
      ensures old(isDragging) ==> position == DraggedPosition(pointer, dragStart)
      ensures !old(isDragging) ==> position == old(position)
    {
      if !isDragging {
        return;
      }
      position := DraggedPosition(pointer, dragStart);
    }

    /** Mouse-up and mouse-leave both end the drag. */
    method MouseUp()
      modifies this`isDragging
      ensures !isDragging
    {
      isDragging := false;
    }

    /** `handleCrop`: one 400 × 400/aspectRatio JPEG (quality 0.9) rendered about
        (200, 200/aspectRatio), passed to `onCropComplete`; nothing when the image or the
        context is missing. */
    method HandleCrop(img: Option<Point>, hasContext: bool, turn: real -> Linear)
      requires Valid()
      modifies this`completed
      ensures img.None? || !hasContext ==> completed == old(completed)
      ensures img.Some? && hasContext ==>
        completed == old(completed) + [DataUrl("image/jpeg", JpegQuality, 400, (OutputSize / aspectRatio).Floor,
          [Draw(Placement(Point(200.0, OutputSize / aspectRatio / 2.0), CurrentView(turn)),
                Times(-0.5, img.value), img.value.x, img.value.y)])]
    {
      if img.None? {
        return;
      }
      var output := new Canvas(300.0, 150.0);
      if !hasContext {
        return;
      }
      output.Resize(OutputSize, OutputSize / aspectRatio);
      var view := CurrentView(turn);
      var centre := Point(OutputSize / 2.0, OutputSize / aspectRatio / 2.0);
      RenderCentred(output, centre, view, img.value);
      assert output.draws == [Draw(Placement(centre, view), Times(-0.5, img.value), img.value.x, img.value.y)];
      var url := output.ToDataUrl("image/jpeg", JpegQuality);
      completed := completed + [url];
    }
  }
}
