// `resizeToLessOrEqualDiskSpace`: redraw the original at reduced sizes, with
// the scale ratio of `calculateTransformRatio`, until its PNG encoding fits a
// byte budget. Each redraw is smaller than the original, not necessarily
// smaller than the previous one.
//
// PNG encoding, drawing and `sqrt` are outside the model: the PNG length of
// the original, the PNG length of the original redrawn at a given size, and
// a square root are parameters.
module DiskBudget {
  import opened Geometry

  /** Start value of the multiplier, raised by 2.0 after every round still over budget. */
  const ResizeMultiplierInitialValue: real := 1.1

  /** What the multiplier grows by after a round that still exceeds the budget. */
  const ResizeMultiplierStep: real := 2.0

  /** `sqrt` on the non-negative reals. */
  ghost predicate IsSqrt(sqrt: real -> real) {
    forall x :: 0.0 <= x ==> 0.0 <= sqrt(x) && sqrt(x) * sqrt(x) == x
  }

  /** The operations the loop borrows from the platform. */
  datatype Platform = Platform(
    redrawnPngLength: Size -> nat,  // PNG length of the image drawn opaque at a size
    sqrt: real -> real)

  ghost predicate ValidPlatform(platform: Platform) {
    IsSqrt(platform.sqrt)
  }

  /**
   * `calculateTransformRatio`: the side ratio that would shrink the encoded
   * length from `existingDiskSize` to `neededDiskSize` if the length were
   * proportional to the area, further divided by `multiplier`. Its square
   * times the squared multiplier is the length ratio needed/existing.
   */
  function CalculateTransformRatio(existingDiskSize: int, neededDiskSize: int, multiplier: real, sqrt: real -> real): (r: real)
    requires existingDiskSize > 0 && neededDiskSize > 0 && multiplier > 0.0
    requires IsSqrt(sqrt)
    ensures r > 0.0
    ensures r * multiplier * r * multiplier * (existingDiskSize as real) == neededDiskSize as real
  {
    var pureRatio := existingDiskSize as real / neededDiskSize as real;
    var sizeRatio := sqrt(pureRatio);
    var ratioWithMultiplier := sizeRatio * multiplier;
    RatioFacts(existingDiskSize as real, neededDiskSize as real, pureRatio, sizeRatio, multiplier);
    1.0 / ratioWithMultiplier
  }

  lemma RatioFacts(existing: real, needed: real, pureRatio: real, sizeRatio: real, multiplier: real)
    requires existing > 0.0 && needed > 0.0 && multiplier > 0.0
    requires pureRatio == existing / needed
    requires sizeRatio >= 0.0 && sizeRatio * sizeRatio == pureRatio
    ensures sizeRatio * multiplier > 0.0
    ensures var r := 1.0 / (sizeRatio * multiplier); r * multiplier * r * multiplier * existing == needed
  {
    var r := 1.0 / (sizeRatio * multiplier);
    assert sizeRatio > 0.0;
    assert r * multiplier * sizeRatio == 1.0;
    var rm := r * multiplier;
    assert rm * sizeRatio == 1.0;
    assert rm * rm * (sizeRatio * sizeRatio) == 1.0;
    assert rm * rm * pureRatio == 1.0;
    assert rm * rm * existing == needed;
  }

  /** A larger multiplier gives a strictly smaller ratio. */
  lemma RatioDecreasesWithMultiplier(existingDiskSize: int, neededDiskSize: int, m1: real, m2: real, sqrt: real -> real)
    requires existingDiskSize > 0 && neededDiskSize > 0 && 0.0 < m1 < m2
    requires IsSqrt(sqrt)
    ensures CalculateTransformRatio(existingDiskSize, neededDiskSize, m2, sqrt) <
            CalculateTransformRatio(existingDiskSize, neededDiskSize, m1, sqrt)
  {
    var s := sqrt(existingDiskSize as real / neededDiskSize as real);
    var r1 := CalculateTransformRatio(existingDiskSize, neededDiskSize, m1, sqrt);
    var r2 := CalculateTransformRatio(existingDiskSize, neededDiskSize, m2, sqrt);
    assert s * m1 > 0.0 && s * m2 > 0.0;
    assert s * m1 < s * m2;
    assert r1 * (s * m1) == 1.0 && r2 * (s * m2) == 1.0;
  }

  /** Over budget and with a multiplier of at least 1, the image is shrunk. */
  lemma RatioBelowOneOverBudget(existingDiskSize: int, neededDiskSize: int, multiplier: real, sqrt: real -> real)
    requires existingDiskSize > neededDiskSize > 0 && multiplier >= 1.0
    requires IsSqrt(sqrt)
    ensures CalculateTransformRatio(existingDiskSize, neededDiskSize, multiplier, sqrt) < 1.0
  {
    var q := existingDiskSize as real / neededDiskSize as real;
    var s := sqrt(q);
    assert q * (neededDiskSize as real) == existingDiskSize as real;
    assert q > 1.0;
    assert s > 1.0 by {
      assert 0.0 <= s && s * s == q;
      assert s + 1.0 > 0.0;
      assert (s - 1.0) * (s + 1.0) == q - 1.0;
      PositiveFactor(s - 1.0, s + 1.0);
    }
    assert s * multiplier > 1.0;
  }

  lemma PositiveFactor(a: real, b: real)
    requires b > 0.0 && a * b > 0.0
    ensures a > 0.0
  {
    var p := a * b;
    assert a == p / b;
  }

  /** On non-negative arguments the square root is determined by its square. */
  lemma SqrtOf(sqrt: real -> real, x: real, s: real)
    requires IsSqrt(sqrt) && s >= 0.0 && s * s == x
    ensures sqrt(x) == s
  {
    var t := sqrt(x);
    assert t >= 0.0 && t * t == x;
    assert (t - s) * (t + s) == 0.0;
    if t + s == 0.0 {
      assert t == 0.0 && s == 0.0;
    } else {
      assert t - s == (t - s) * (t + s) / (t + s);
    }
  }

  /**
   * The ratio is recomputed from the latest PNG length, so it need not
   * shrink from one round to the next: 100 times over budget with multiplier
   * 1.1 gives 1/11, and a redraw still 4 times over budget with multiplier 3.1
   * then gives 1/6.2, a larger ratio.
   */
  lemma RatioCanGrowBetweenRounds(sqrt: real -> real)
    requires IsSqrt(sqrt)
    ensures CalculateTransformRatio(100, 1, 1.1, sqrt) < CalculateTransformRatio(4, 1, 3.1, sqrt)
  {
    SqrtOf(sqrt, 100.0, 10.0);
    SqrtOf(sqrt, 4.0, 2.0);
  }

  /** `self`, or a bitmap of the original redrawn at a given size. */
  datatype ScaledImage = Original | Redrawn(size: Size)

  /** The loop's variables: `scaledImage`, `pngData.length` and `resizeMultiplier`. */
  datatype SearchState = SearchState(scaledImage: ScaledImage, pngLength: int, resizeMultiplier: real)

  /** Found: the image returned. BoundReached: the round bound ran out while still over budget. */
  datatype SearchOutcome = Found(image: ScaledImage) | BoundReached

  /** Strictly smaller than the original on both axes, positive, same aspect ratio. */
  predicate ScaledDown(size: Size, original: Size) {
    0.0 < size.width < original.width && 0.0 < size.height < original.height &&
    SameAspect(size, original)
  }

  /** The PNG length of an image the loop can hold. */
  function PngLengthOf(image: ScaledImage, originalPngLength: nat, platform: Platform): nat {
    match image
    case Original => originalPngLength
    case Redrawn(size) => platform.redrawnPngLength(size)
  }

  /** The state before the first round. */
  function Initial(originalPngLength: nat): SearchState {
    SearchState(Original, originalPngLength, ResizeMultiplierInitialValue)
  }

  /**
   * One round over budget: always the ORIGINAL size scaled by the ratio
   * computed from the latest PNG length, redrawn and re-encoded, and the
   * multiplier raised by one step. The new image is smaller than the
   * original on both axes and keeps its aspect ratio.
   */
  function Step(original: Size, budget: int, platform: Platform, s: SearchState): (r: SearchState)
    requires budget > 0 && s.pngLength > budget && s.resizeMultiplier >= 1.0
    requires ValidPlatform(platform)
    ensures r.scaledImage.Redrawn? && r.pngLength == platform.redrawnPngLength(r.scaledImage.size)
    ensures r.resizeMultiplier == s.resizeMultiplier + ResizeMultiplierStep
    ensures IsPositive(original) ==> ScaledDown(r.scaledImage.size, original)
  {
    var ratio := CalculateTransformRatio(s.pngLength, budget, s.resizeMultiplier, platform.sqrt);
    RatioBelowOneOverBudget(s.pngLength, budget, s.resizeMultiplier, platform.sqrt);
    var scaledSize := Scaled(original, ratio);
    ShrinkKeepsAspect(original, ratio);
    SearchState(Redrawn(scaledSize), platform.redrawnPngLength(scaledSize), s.resizeMultiplier + ResizeMultiplierStep)
  }

  lemma ShrinkKeepsAspect(original: Size, ratio: real)
    requires 0.0 < ratio < 1.0
    ensures IsPositive(original) ==> ScaledDown(Scaled(original, ratio), original)
  {
    if IsPositive(original) {
      var r := Scaled(original, ratio);
      ShrinkSide(original.width, ratio, r.width);
      ShrinkSide(original.height, ratio, r.height);
      assert 0.0 < r.width < original.width && 0.0 < r.height < original.height;
      assert SameAspect(r, original);
    }
  }

  lemma ShrinkSide(side: real, ratio: real, scaled: real)
    requires side > 0.0 && 0.0 < ratio < 1.0 && scaled == side * ratio
    ensures 0.0 < scaled < side
  {
    assert side - scaled == side * (1.0 - ratio);
    assert side * (1.0 - ratio) > 0.0;
    assert side * ratio > 0.0;
    assert side - scaled > 0.0;
  }

  /**
   * Because each round scales the original by a ratio computed from the
   * latest PNG length, redraws need not shrink from round to round: an
   * original 100 times over budget is first redrawn at ratio 1/11; if that
   * redraw is still 4 times over budget, the next one is drawn at ratio
   * 1/6.2, larger on both axes than the first.
   */
  lemma SecondRedrawLarger(original: Size, platform: Platform)
    requires ValidPlatform(platform) && IsPositive(original)
    requires platform.redrawnPngLength(Scaled(original, CalculateTransformRatio(100, 1, 1.1, platform.sqrt))) == 4
    ensures var first := Step(original, 1, platform, Initial(100));
      var second := Step(original, 1, platform, first);
      first.scaledImage.size.width < second.scaledImage.size.width &&
      first.scaledImage.size.height < second.scaledImage.size.height
  {
    RatioCanGrowBetweenRounds(platform.sqrt);
    var r1 := CalculateTransformRatio(100, 1, 1.1, platform.sqrt);
    var r2 := CalculateTransformRatio(4, 1, 3.1, platform.sqrt);
    var first := Step(original, 1, platform, Initial(100));
    assert first == SearchState(Redrawn(Scaled(original, r1)), 4, 3.1);
    assert Step(original, 1, platform, first).scaledImage.size == Scaled(original, r2);
    ScaledSidesGrow(original, r1, r2);
  }

  lemma ScaledSidesGrow(original: Size, r1: real, r2: real)
    requires IsPositive(original) && r1 < r2
    ensures Scaled(original, r1).width < Scaled(original, r2).width
    ensures Scaled(original, r1).height < Scaled(original, r2).height
  {
    assert original.width * r1 < original.width * r2;
    assert original.height * r1 < original.height * r2;
  }

  /** The loop, run for at most `fuel` more rounds from state `s`. */
  function Search(original: Size, budget: int, platform: Platform, s: SearchState, fuel: nat): SearchOutcome
    requires budget > 0 && s.resizeMultiplier >= 1.0
    requires ValidPlatform(platform)
    decreases fuel
  {
    if s.pngLength <= budget then Found(s.scaledImage)
    else if fuel == 0 then BoundReached
    else Search(original, budget, platform, Step(original, budget, platform, s), fuel - 1)
  }

  /** A state whose length is the PNG length of its image. */
  predicate Consistent(s: SearchState, originalPngLength: nat, platform: Platform) {
    s.pngLength == PngLengthOf(s.scaledImage, originalPngLength, platform)
  }

  /**
   * Whatever the search returns fits the budget, and is either the image of
   * the state it started from (when that already fits) or a redraw smaller
   * than the original with the original's aspect ratio.
   */
  lemma {:induction false} SearchResult(original: Size, originalPngLength: nat, budget: int, platform: Platform, s: SearchState, fuel: nat)
    requires budget > 0 && s.resizeMultiplier >= 1.0
    requires ValidPlatform(platform) && IsPositive(original)
    requires Consistent(s, originalPngLength, platform)
    ensures var r := Search(original, budget, platform, s, fuel);
      r.Found? ==>
        PngLengthOf(r.image, originalPngLength, platform) <= budget &&
        ((r.image == s.scaledImage && s.pngLength <= budget) ||
         (r.image.Redrawn? && ScaledDown(r.image.size, original)))
    decreases fuel
  {
    if s.pngLength > budget && fuel > 0 {
      var next := Step(original, budget, platform, s);
      SearchResult(original, originalPngLength, budget, platform, next, fuel - 1);
    }
  }

  /**
   * `resizeToLessOrEqualDiskSpace(size)`, with the budget `size` renamed to
   * `budget` and the loop cut off after `maxRounds` rounds. Returns the
   * outcome, the number of redraws and the multiplier the loop ends with,
   * which has grown by one step per redraw. The original comes back untouched,
   * without a redraw, exactly when its PNG already fits; a returned image
   * always fits; a redrawn one is smaller than the original on both axes
   * and keeps its aspect ratio.
   */
  method ResizeToLessOrEqualDiskSpace(original: Size, originalPngLength: nat, budget: int, platform: Platform, maxRounds: nat)
    returns (r: SearchOutcome, redraws: nat, resizeMultiplier: real)
    requires budget > 0
    requires ValidPlatform(platform)
    ensures r == Search(original, budget, platform, Initial(originalPngLength), maxRounds)
    ensures redraws <= maxRounds
    ensures originalPngLength <= budget ==> r == Found(Original) && redraws == 0
    ensures originalPngLength > budget && maxRounds > 0 ==> redraws > 0
    ensures r.BoundReached? ==> redraws == maxRounds
    ensures resizeMultiplier == ResizeMultiplierInitialValue + ResizeMultiplierStep * redraws as real
    ensures r.Found? ==> PngLengthOf(r.image, originalPngLength, platform) <= budget
    ensures r.Found? && r.image.Redrawn? && IsPositive(original) ==> ScaledDown(r.image.size, original)
  {
    var scaledImage := Original;
    var pngLength: int := originalPngLength;
    resizeMultiplier := ResizeMultiplierInitialValue;
    redraws := 0;
    while pngLength > budget && redraws < maxRounds
      invariant redraws <= maxRounds
      invariant resizeMultiplier == ResizeMultiplierInitialValue + ResizeMultiplierStep * redraws as real
      invariant Consistent(SearchState(scaledImage, pngLength, resizeMultiplier), originalPngLength, platform)
      invariant redraws == 0 ==> scaledImage == Original
      invariant redraws > 0 ==> scaledImage.Redrawn? && (IsPositive(original) ==> ScaledDown(scaledImage.size, original))
      invariant Search(original, budget, platform, SearchState(scaledImage, pngLength, resizeMultiplier), maxRounds - redraws)
             == Search(original, budget, platform, Initial(originalPngLength), maxRounds)
      decreases maxRounds - redraws
    {
      var ratio := CalculateTransformRatio(pngLength, budget, resizeMultiplier, platform.sqrt);
      RatioBelowOneOverBudget(pngLength, budget, resizeMultiplier, platform.sqrt);
      var scaledSize := Scaled(original, ratio);
      ShrinkKeepsAspect(original, ratio);
      scaledImage := Redrawn(scaledSize);
      pngLength := platform.redrawnPngLength(scaledSize);
      resizeMultiplier := resizeMultiplier + ResizeMultiplierStep;
      redraws := redraws + 1;
    }
    r := if pngLength <= budget then Found(scaledImage) else BoundReached;
  }
}
