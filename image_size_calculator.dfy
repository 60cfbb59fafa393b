// ImageSizeCalculator: given the size wanted, the size of the image and a
// strategy, it picks one uniform scale ratio and places the scaled image
// centred in a canvas of the wanted size.
module SizeCalculator {
  import opened Geometry
  import opened ResizeTypes

  /** The calculator's three inputs are immutable, so the calculator is a value. */
  datatype ImageSizeCalculator = ImageSizeCalculator(
    neededSize: Size,
    initialSize: Size,
    resizeStrategy: ImageResizeType)
  {
    /** The only thing the computations rely on: they divide by the image's sides. */
    predicate HasPositiveInitialSize() {
      IsPositive(initialSize)
    }

    /** The ratio that maps the image's width onto the needed width. */
    function WidthScaleRatio(): (r: real)
      requires initialSize.width > 0.0
      ensures initialSize.width * r == neededSize.width
    {
      neededSize.width / initialSize.width
    }

    /** The ratio that maps the image's height onto the needed height. */
    function HeightScaleRatio(): (r: real)
      requires initialSize.height > 0.0
      ensures initialSize.height * r == neededSize.height
    {
      neededSize.height / initialSize.height
    }

    /** The governing ratio: the smaller axis ratio for Fit, the larger for Fill. */
    function Ratio(): (r: real)
      requires HasPositiveInitialSize()
      ensures r == WidthScaleRatio() || r == HeightScaleRatio()
      ensures resizeStrategy == Fit ==> r <= WidthScaleRatio() && r <= HeightScaleRatio()
      ensures resizeStrategy == Fill ==> r >= WidthScaleRatio() && r >= HeightScaleRatio()
    {
      match resizeStrategy
      case Fit => Min(WidthScaleRatio(), HeightScaleRatio())
      case Fill => Max(WidthScaleRatio(), HeightScaleRatio())
    }

    /**
     * The image scaled by the governing ratio: it keeps the image's aspect
     * ratio, fits into the needed size under Fit, covers it under Fill, and
     * matches the needed size exactly on at least one axis.
     */
    function NewImageSize(): (r: Size)
      requires HasPositiveInitialSize()
      ensures SameAspect(r, initialSize)
      ensures resizeStrategy == Fit ==> r.width <= neededSize.width && r.height <= neededSize.height
      ensures resizeStrategy == Fill ==> r.width >= neededSize.width && r.height >= neededSize.height
      ensures WidthScaleRatio() == Ratio() ==> r.width == neededSize.width
      ensures HeightScaleRatio() == Ratio() ==> r.height == neededSize.height
      ensures r.width == neededSize.width || r.height == neededSize.height
    {
      var ratio := Ratio();
      ScaleBound(initialSize.width, ratio, WidthScaleRatio(), neededSize.width);
      ScaleBound(initialSize.height, ratio, HeightScaleRatio(), neededSize.height);
      Scaled(initialSize, ratio)
    }

    /** The canvas is always the needed size. */
    function GetCanvasSize(): (r: Size)
      ensures r == neededSize
    {
      neededSize
    }

    /**
     * The horizontal origin of the scaled image: half of the horizontal slack,
     * so the image is centred; non-negative under Fit (inset), non-positive
     * under Fill (overflow), and zero on an axis whose own ratio governs.
     */
    function CalculateOriginX(): (r: real)
      requires HasPositiveInitialSize()
      ensures r == (neededSize.width - NewImageSize().width) / 2.0
      ensures resizeStrategy == Fit ==> r >= 0.0
      ensures resizeStrategy == Fill ==> r <= 0.0
      ensures WidthScaleRatio() == Ratio() ==> r == 0.0
    {
      var shouldHaveOriginMoreThanZero :=
        (resizeStrategy == Fit && WidthScaleRatio() > Ratio()) ||
        (resizeStrategy == Fill && WidthScaleRatio() < Ratio());
      var imageRectOriginX :=
        if shouldHaveOriginMoreThanZero then
          var greaterSide := Max(neededSize.width, NewImageSize().width);
          var lowerSide := Min(neededSize.width, NewImageSize().width);
          (greaterSide - lowerSide) / 2.0
        else 0.0;
      match resizeStrategy
      case Fit => imageRectOriginX
      case Fill => -imageRectOriginX
    }

    /** The vertical counterpart of CalculateOriginX. */
    function CalculateOriginY(): (r: real)
      requires HasPositiveInitialSize()
      ensures r == (neededSize.height - NewImageSize().height) / 2.0
      ensures resizeStrategy == Fit ==> r >= 0.0
      ensures resizeStrategy == Fill ==> r <= 0.0
      ensures HeightScaleRatio() == Ratio() ==> r == 0.0
    {
      var shouldHaveOriginMoreThanZero :=
        (resizeStrategy == Fit && HeightScaleRatio() > Ratio()) ||
        (resizeStrategy == Fill && HeightScaleRatio() < Ratio());
      var imageRectOriginY :=
        if shouldHaveOriginMoreThanZero then
          var greaterSide := Max(neededSize.height, NewImageSize().height);
          var lowerSide := Min(neededSize.height, NewImageSize().height);
          (greaterSide - lowerSide) / 2.0
        else 0.0;
      match resizeStrategy
      case Fit => imageRectOriginY
      case Fill => -imageRectOriginY
    }

    /**
     * Where the image is drawn in the canvas: centred on both axes, with the
     * image's aspect ratio; inside the canvas under Fit, covering it under
     * Fill, and flush with the canvas edges on at least one axis.
     */
    function GetImageRect(): (r: Rect)
      requires HasPositiveInitialSize()
      ensures SameAspect(r.size, initialSize)
      ensures 2.0 * r.origin.x + r.size.width == neededSize.width
      ensures 2.0 * r.origin.y + r.size.height == neededSize.height
      ensures resizeStrategy == Fit ==>
        0.0 <= r.origin.x && r.origin.x + r.size.width <= neededSize.width &&
        0.0 <= r.origin.y && r.origin.y + r.size.height <= neededSize.height
      ensures resizeStrategy == Fill ==>
        r.origin.x <= 0.0 && neededSize.width <= r.origin.x + r.size.width &&
        r.origin.y <= 0.0 && neededSize.height <= r.origin.y + r.size.height
      ensures (r.origin.x == 0.0 && r.size.width == neededSize.width) ||
              (r.origin.y == 0.0 && r.size.height == neededSize.height)
    {
      Rect(Point(CalculateOriginX(), CalculateOriginY()), NewImageSize())
    }
  }

  /** Scaling a positive side by a ratio that is at most (at least) the side's own ratio. */
  lemma ScaleBound(side: real, ratio: real, own: real, target: real)
    requires side > 0.0 && side * own == target
    ensures ratio <= own ==> side * ratio <= target
    ensures ratio >= own ==> side * ratio >= target
    ensures ratio == own ==> side * ratio == target
  {
  }

  /**
   * When the image and the canvas have the same aspect ratio, both strategies
   * draw the image over the whole canvas.
   */
  lemma EqualAspectFillsCanvas(calculator: ImageSizeCalculator)
    requires calculator.HasPositiveInitialSize()
    requires SameAspect(calculator.neededSize, calculator.initialSize)
    ensures calculator.GetImageRect() == Bounds(calculator.neededSize)
  {
    var init, needed := calculator.initialSize, calculator.neededSize;
    var w, h := calculator.WidthScaleRatio(), calculator.HeightScaleRatio();
    assert init.width * init.height * w == init.width * init.height * h by {
      calc {
        init.width * init.height * w;
        init.height * needed.width;
        init.width * needed.height;
        init.width * init.height * h;
      }
    }
    assert w == h;
  }
}
