// `resizeTo` and `resizeToLargeSideEqual` of the UIImage extension: which
// canvas the result gets, which transform the bitmap context is given and
// into which rectangle the source bitmap is drawn. The pixels themselves are
// drawn by CoreGraphics and are not part of this model.
module ImageExtension {
  import opened Geometry
  import opened ResizeTypes
  import opened SizeCalculator
  import opened OrientationTransform

  /** The parts of a UIImage the geometry depends on: its displayed size and its orientation tag. */
  datatype Image = Image(size: Size, imageOrientation: ImageOrientation)

  /**
   * What `resizeTo` hands to CoreGraphics: a bitmap canvas of `canvasSize`
   * (the size of the returned image), the transform concatenated to the
   * context, and the rectangle the source bitmap is drawn into.
   */
  datatype Rendering = Rendering(canvasSize: Size, transform: AffineTransform, drawRect: Rect)

  /** The rectangle the source bitmap is drawn into, as the code computes it. */
  function DrawRect(orientation: ImageOrientation, imageRect: Rect): Rect {
    var transposedRect := Rect(Point(0.0, 0.0), Swapped(imageRect.size));
    if ShouldTranspose(orientation) then transposedRect else imageRect
  }

  /**
   * A draw rectangle that transposes the origin together with the size, so
   * that the transform carries it onto the image rectangle for every
   * orientation.
   */
  function CenteredDrawRect(orientation: ImageOrientation, imageRect: Rect): Rect {
    var o := imageRect.origin;
    if ShouldTranspose(orientation) then Rect(Point(o.y, o.x), Swapped(imageRect.size)) else imageRect
  }

  /** A rectangle centred in a canvas of the given size, as GetImageRect produces. */
  predicate CenteredIn(r: Rect, canvas: Size) {
    2.0 * r.origin.x + r.size.width == canvas.width &&
    2.0 * r.origin.y + r.size.height == canvas.height
  }

  /**
   * `resizeTo(newSize)`: a calculator in Fit mode with the requested size as
   * canvas and the image's own size as initial size, the orientation's
   * transform for that canvas, and the (possibly transposed) image rectangle.
   * It throws BitmapContextCreateFail exactly when CoreGraphics returns no
   * image for the bitmap context.
   */
  function ResizeTo(image: Image, newSize: Size, bitmapImageCreated: bool): (r: Result<Rendering>)
    requires IsPositive(image.size)
    ensures r.Failure? <==> !bitmapImageCreated
    ensures r.Success? ==> r.value.canvasSize == newSize
    ensures r.Success? ==> r.value.transform == TransformForOrientation(image.imageOrientation, newSize)
    ensures r.Success? ==>
      var imageRect := ImageSizeCalculator(newSize, image.size, Fit).GetImageRect();
      SameAspect(imageRect.size, image.size) &&
      imageRect.size.width <= newSize.width && imageRect.size.height <= newSize.height &&
      r.value.drawRect == DrawRect(image.imageOrientation, imageRect)
    ensures r.Success? ==> forall p :: InRect(p, r.value.drawRect) ==>
      InRect(Apply(r.value.transform, p), Bounds(newSize))
    ensures r.Success? && !ShouldTranspose(image.imageOrientation) ==>
      forall p :: InRect(p, r.value.drawRect) <==>
        InRect(Apply(r.value.transform, p), ImageSizeCalculator(newSize, image.size, Fit).GetImageRect())
  {
    var calculator := ImageSizeCalculator(newSize, image.size, Fit);
    var imageRect := calculator.GetImageRect();
    var canvasSize := calculator.GetCanvasSize();
    var transform := TransformForOrientation(image.imageOrientation, canvasSize);
    var drawRect := DrawRect(image.imageOrientation, imageRect);
    DrawnContentPlacement(image.imageOrientation, canvasSize, imageRect);
    if bitmapImageCreated then Success(Rendering(canvasSize, transform, drawRect))
    else Failure(BitmapContextCreateFail)
  }

  /**
   * Where the as-written draw rectangle ends up: for a rectangle placed as
   * Fit places it, the drawn content stays inside the canvas, and for the
   * orientations that do not transpose it lands exactly on the image
   * rectangle.
   */
  lemma DrawnContentPlacement(orientation: ImageOrientation, canvas: Size, imageRect: Rect)
    requires CenteredIn(imageRect, canvas)
    requires 0.0 <= imageRect.origin.x && 0.0 <= imageRect.origin.y
    ensures forall p :: InRect(p, DrawRect(orientation, imageRect)) ==>
      InRect(Apply(TransformForOrientation(orientation, canvas), p), Bounds(canvas))
    ensures !ShouldTranspose(orientation) ==>
      forall p :: InRect(p, DrawRect(orientation, imageRect)) <==>
        InRect(Apply(TransformForOrientation(orientation, canvas), p), imageRect)
  {
    TransformIsTable(orientation, canvas);
    PlacementFromTable(orientation, canvas, imageRect, TransformForOrientation(orientation, canvas));
  }

  lemma PlacementFromTable(orientation: ImageOrientation, canvas: Size, imageRect: Rect, t: AffineTransform)
    requires CenteredIn(imageRect, canvas)
    requires 0.0 <= imageRect.origin.x && 0.0 <= imageRect.origin.y
    requires forall p :: Apply(t, p) == Reoriented(orientation, canvas, p)
    ensures forall p :: InRect(p, DrawRect(orientation, imageRect)) ==> InRect(Apply(t, p), Bounds(canvas))
    ensures !ShouldTranspose(orientation) ==>
      forall p :: InRect(p, DrawRect(orientation, imageRect)) <==> InRect(Apply(t, p), imageRect)
  {
    forall p ensures InRect(p, DrawRect(orientation, imageRect)) ==> InRect(Apply(t, p), Bounds(canvas)) {
      assert Apply(t, p) == Reoriented(orientation, canvas, p);
    }
    forall p ensures !ShouldTranspose(orientation) ==>
      (InRect(p, DrawRect(orientation, imageRect)) <==> InRect(Apply(t, p), imageRect))
    {
      assert Apply(t, p) == Reoriented(orientation, canvas, p);
    }
  }

  /**
   * The corrected draw rectangle: for every orientation the transform carries
   * it exactly onto the centred image rectangle.
   */
  lemma CenteredDrawRectLandsOnImageRect(orientation: ImageOrientation, canvas: Size, imageRect: Rect)
    requires CenteredIn(imageRect, canvas)
    ensures forall p :: InRect(p, CenteredDrawRect(orientation, imageRect)) <==>
      InRect(Apply(TransformForOrientation(orientation, canvas), p), imageRect)
  {
    TransformIsTable(orientation, canvas);
    CenteredFromTable(orientation, canvas, imageRect, TransformForOrientation(orientation, canvas));
  }

  lemma CenteredFromTable(orientation: ImageOrientation, canvas: Size, imageRect: Rect, t: AffineTransform)
    requires CenteredIn(imageRect, canvas)
    requires forall p :: Apply(t, p) == Reoriented(orientation, canvas, p)
    ensures forall p :: InRect(p, CenteredDrawRect(orientation, imageRect)) <==> InRect(Apply(t, p), imageRect)
  {
    forall p ensures InRect(p, CenteredDrawRect(orientation, imageRect)) <==> InRect(Apply(t, p), imageRect) {
      assert Apply(t, p) == Reoriented(orientation, canvas, p);
    }
  }

  /** Fit places a 100x200 image in a 100x100 canvas at x = 25, as a 50x100 rectangle. */
  lemma LetterboxExample()
    ensures ImageSizeCalculator(Size(100.0, 100.0), Size(100.0, 200.0), Fit).GetImageRect() ==
      Rect(Point(25.0, 0.0), Size(50.0, 100.0))
  {
    var calculator := ImageSizeCalculator(Size(100.0, 100.0), Size(100.0, 200.0), Fit);
    assert calculator.WidthScaleRatio() == 1.0;
    assert calculator.HeightScaleRatio() == 0.5;
    assert calculator.NewImageSize() == Size(50.0, 100.0);
  }

  /**
   * The as-written draw rectangle misplaces letterboxed content of a rotated
   * image: an image shown as 100x200 with orientation Left, resized to
   * 100x100, belongs on the image rectangle at x in [25, 75], but the drawn
   * rectangle lands exactly on x in [50, 100]; its corner (0, 0) goes to
   * (100, 0), outside the image rectangle.
   */
  lemma TransposedDrawRectMisplacesContent()
    ensures var canvas := Size(100.0, 100.0);
      var imageRect := ImageSizeCalculator(canvas, Size(100.0, 200.0), Fit).GetImageRect();
      var t := TransformForOrientation(Left, canvas);
      imageRect == Rect(Point(25.0, 0.0), Size(50.0, 100.0)) &&
      (forall p :: InRect(p, DrawRect(Left, imageRect)) <==>
         InRect(Apply(t, p), Rect(Point(50.0, 0.0), Size(50.0, 100.0)))) &&
      InRect(Point(0.0, 0.0), DrawRect(Left, imageRect)) &&
      !InRect(Apply(t, Point(0.0, 0.0)), imageRect)
  {
    var canvas := Size(100.0, 100.0);
    LetterboxExample();
    TransformIsTable(Left, canvas);
    MisplacedFromTable(canvas, Rect(Point(25.0, 0.0), Size(50.0, 100.0)), TransformForOrientation(Left, canvas));
  }

  lemma MisplacedFromTable(canvas: Size, imageRect: Rect, t: AffineTransform)
    requires canvas == Size(100.0, 100.0) && imageRect == Rect(Point(25.0, 0.0), Size(50.0, 100.0))
    requires forall p :: Apply(t, p) == Reoriented(Left, canvas, p)
    ensures forall p :: InRect(p, DrawRect(Left, imageRect)) <==>
      InRect(Apply(t, p), Rect(Point(50.0, 0.0), Size(50.0, 100.0)))
    ensures InRect(Point(0.0, 0.0), DrawRect(Left, imageRect))
    ensures !InRect(Apply(t, Point(0.0, 0.0)), imageRect)
  {
    forall p ensures InRect(p, DrawRect(Left, imageRect)) <==>
      InRect(Apply(t, p), Rect(Point(50.0, 0.0), Size(50.0, 100.0)))
    {
      assert Apply(t, p) == Reoriented(Left, canvas, p);
    }
    assert Apply(t, Point(0.0, 0.0)) == Reoriented(Left, canvas, Point(0.0, 0.0));
  }

  /** The size `resizeToLargeSideEqual` requests: the image scaled so its larger side is `largeSide`. */
  function LargeSideRequest(size: Size, largeSide: real): (r: Size)
    requires IsPositive(size)
    ensures SameAspect(r, size)
    ensures largeSide >= 0.0 ==> Max(r.width, r.height) == largeSide
  {
    var sourceLargeSize := Max(size.height, size.width);
    var scale := largeSide / sourceLargeSize;
    LargeSideScale(size, scale, sourceLargeSize, largeSide);
    Scaled(size, scale)
  }

  lemma LargeSideScale(size: Size, scale: real, sourceLargeSize: real, largeSide: real)
    requires IsPositive(size)
    requires sourceLargeSize == Max(size.height, size.width)
    requires scale == largeSide / sourceLargeSize
    ensures largeSide >= 0.0 ==> Max(size.width * scale, size.height * scale) == largeSide
  {
    if largeSide >= 0.0 {
      assert scale >= 0.0;
      assert sourceLargeSize * scale == largeSide;
      if size.width >= size.height {
        assert size.width * scale >= size.height * scale;
      } else {
        assert size.width * scale <= size.height * scale;
      }
    }
  }

  /**
   * `resizeToLargeSideEqual(largeSide)`: `resizeTo` with the large-side
   * request, rethrowing its exception unchanged.
   */
  function ResizeToLargeSideEqual(image: Image, largeSide: real, bitmapImageCreated: bool): (r: Result<Rendering>)
    requires IsPositive(image.size)
    ensures r.Failure? <==> !bitmapImageCreated
    ensures r.Success? ==> SameAspect(r.value.canvasSize, image.size)
    ensures r.Success? && largeSide >= 0.0 ==> Max(r.value.canvasSize.width, r.value.canvasSize.height) == largeSide
  {
    match ResizeTo(image, LargeSideRequest(image.size, largeSide), bitmapImageCreated)
    case Success(rendering) => Success(rendering)
    case Failure(BitmapContextCreateFail) => Failure(BitmapContextCreateFail)
  }

  /** A 2592x1936 image resized to large side 324 becomes 324x242. */
  lemma LargeSideExample()
    ensures LargeSideRequest(Size(2592.0, 1936.0), 324.0) == Size(324.0, 242.0)
  {
  }
}
