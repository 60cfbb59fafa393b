# ImageResizeExtension, modelled in Dafny

ImageResizeExtension is a small UIKit extension that resizes a `UIImage` in three ways:

- **`resizeTo(newSize)`** draws the image into a bitmap canvas of exactly `newSize`. It keeps the image's aspect ratio by letterboxing (the `Fit` strategy), and it undoes the image's EXIF-style orientation with an affine transform.
- **`resizeToLargeSideEqual(largeSide)`** asks `resizeTo` for the image scaled so that its larger side is `largeSide`.
- **`resizeToLessOrEqualDiskSpace(size)`** redraws the original at reduced sizes until its PNG encoding is at most `size` bytes. Each redraw is smaller than the original, not necessarily smaller than the previous one.

The geometry behind `resizeTo` lives in `ImageSizeCalculator`. From a needed size, an initial size and a strategy (`Fit` or `Fill`), it picks one uniform scale ratio. It then places the scaled image centred in a canvas of the needed size:

- under `Fit`, the image is inset in the canvas;
- under `Fill`, it covers the canvas and overflows it.

The model works over exact `real`s.

| file | module | models |
|---|---|---|
| `geometry.dfy` | `Geometry` | `CGSize`, `CGPoint`, `CGRect`; uniform scaling, aspect ratio, containment |
| `resize_types.dfy` | `ResizeTypes` | `ImageResizeType`, `ResizeException`, and a `Result` that carries a thrown exception |
| `image_size_calculator.dfy` | `SizeCalculator` | the `ImageSizeCalculator` class, as an immutable value |
| `orientation.dfy` | `OrientationTransform` | `transformForOrientation` and `shouldTranspose` |
| `image_extension.dfy` | `ImageExtension` | `resizeTo` with its draw rectangle, and `resizeToLargeSideEqual` |
| `disk_budget.dfy` | `DiskBudget` | `calculateTransformRatio` and the `resizeToLessOrEqualDiskSpace` loop |

How the source maps onto Dafny:

- **The calculator.** Its three fields are immutable `let`s, so it is a datatype. Its computed properties are member functions.
- **Transforms.** `transformForOrientation` becomes:
  - a sequence of symbolic steps (`Translate`, `Rotate` by quarter turns, `Scale`);
  - an exact affine matrix built from them with CoreGraphics' composition order. `CGAffineTransformTranslate(t, …)` applies the translation first and then `t`.

  Rotation by π, π/2 and −π/2 is 2, 1 and −1 quarter turns, so no sine or cosine is evaluated. The whole transform is proved equal, point for point, to an independent table of where each orientation sends a point.
- **Drawing.** `resizeTo` returns what it hands to CoreGraphics:
  - the canvas size;
  - the transform;
  - the rectangle the bitmap is drawn into.

  Whether `CGBitmapContextCreateImage` produced an image is a parameter. When it did not, the result is the `BitmapContextCreateFail` failure.
- **The disk-budget loop.** It is a `method` with a `while` loop over the source's variables:
  - `scaledImage`;
  - the PNG length;
  - `resizeMultiplier`.

  PNG encoding and `sqrt` are parameters. The loop is proved equal to a recursive specification function `Search`.

## Model

| member | source | states |
|---|---|---|
| Geometry.Scaled | ImageResizeExtension/UIImage+Extension.swift:38 | scaling both sides by one ratio keeps the aspect ratio; NewImageSize, LargeSideRequest and each redraw's size are built with it |
| SizeCalculator.ImageSizeCalculator.WidthScaleRatio | ImageResizeExtension/ImageSizeCalculator.swift:20-22 | the ratio maps the image's width exactly onto the needed width |
| SizeCalculator.ImageSizeCalculator.HeightScaleRatio | ImageResizeExtension/ImageSizeCalculator.swift:25-27 | the ratio maps the image's height exactly onto the needed height |
| SizeCalculator.ImageSizeCalculator.Ratio | ImageResizeExtension/ImageSizeCalculator.swift:30-37 | the governing ratio is one of the two axis ratios: at most both under Fit (the minimum), at least both under Fill (the maximum) |
| SizeCalculator.ImageSizeCalculator.NewImageSize | ImageResizeExtension/ImageSizeCalculator.swift:40-43 | keeps the initial aspect ratio; fits inside the needed size under Fit and covers it under Fill; equals the needed size on every axis whose own ratio governs, and on at least one axis |
| SizeCalculator.ImageSizeCalculator.GetCanvasSize | ImageResizeExtension/ImageSizeCalculator.swift:65-67 | the canvas is the needed size unchanged |
| SizeCalculator.ImageSizeCalculator.CalculateOriginX | ImageResizeExtension/ImageSizeCalculator.swift:86-102 | the origin is half the horizontal slack, so the image is centred; it is >= 0 under Fit, <= 0 under Fill, and 0 when the width ratio governs |
| SizeCalculator.ImageSizeCalculator.CalculateOriginY | ImageResizeExtension/ImageSizeCalculator.swift:109-125 | the same on the vertical axis |
| SizeCalculator.ImageSizeCalculator.GetImageRect | ImageResizeExtension/ImageSizeCalculator.swift:74-79 | the rectangle keeps the aspect ratio and is centred on both axes; it lies inside the canvas under Fit and covers it under Fill; on at least one axis it is flush with the canvas edges |
| SizeCalculator.EqualAspectFillsCanvas | ImageResizeExtension/ImageSizeCalculator.swift:20-43 | when image and canvas have the same aspect ratio, both strategies draw the image over exactly the whole canvas |
| OrientationTransform.Recipe | ImageResizeExtension/UIImage+Extension.swift:143-173 | the switch's step list per orientation; its meaning is given by MirroredRecipes and RecipeMatchesTable |
| OrientationTransform.TransformForOrientation | ImageResizeExtension/UIImage+Extension.swift:141-175 | the recipe folded into a transform from the identity; its meaning is given by TransformMatchesTable, TransformIsTable and TransformMapsSourceOntoCanvas |
| OrientationTransform.ShouldTranspose | ImageResizeExtension/UIImage+Extension.swift:115-118 | true for Left, Right, LeftMirrored and RightMirrored; its meaning is given by TransposeIffAxesSwap |
| OrientationTransform.UpIsIdentity | ImageResizeExtension/UIImage+Extension.swift:142-174 | the default branch (Up) leaves the identity transform |
| OrientationTransform.MirroredRecipes | ImageResizeExtension/UIImage+Extension.swift:144-170 | each mirrored recipe is its unmirrored recipe followed by a translation by the width, or by the height for the transposing orientations, and a horizontal flip |
| OrientationTransform.RecipeMatchesTable | ImageResizeExtension/UIImage+Extension.swift:143-173 | applying the recipe's steps moves every point where the orientation table says |
| OrientationTransform.TransformMatchesTable | ImageResizeExtension/UIImage+Extension.swift:141-175 | the affine transform built step by step moves every point as the orientation table says |
| OrientationTransform.TransformIsTable | ImageResizeExtension/UIImage+Extension.swift:141-175 | the same for all points at once |
| OrientationTransform.TransposeIffAxesSwap | ImageResizeExtension/UIImage+Extension.swift:115-118 | shouldTranspose holds exactly for the orientations whose transform sends the horizontal axis onto the vertical one |
| OrientationTransform.TransformMapsSourceOntoCanvas | ImageResizeExtension/UIImage+Extension.swift:141-175 | a point lies in the source box (the canvas with its sides swapped when transposing) iff the transform puts it inside the canvas |
| ImageExtension.ResizeTo | ImageResizeExtension/UIImage+Extension.swift:104-139 | throws BitmapContextCreateFail exactly when no bitmap image is created; otherwise the canvas is the requested size and the transform is the orientation's. The image rectangle comes from a Fit calculator: it keeps the image's aspect and fits the canvas. The draw rectangle is swapped and zero-origin when transposing, and the image rectangle otherwise. Drawn content stays inside the canvas, and without transposition it lands exactly on the image rectangle. |
| ImageExtension.DrawRect | ImageResizeExtension/UIImage+Extension.swift:112-132 | the draw rectangle as written; its meaning is given by DrawnContentPlacement and TransposedDrawRectMisplacesContent |
| ImageExtension.CenteredDrawRect | ImageResizeExtension/UIImage+Extension.swift:112-132 | the corrected draw rectangle; its meaning is given by CenteredDrawRectLandsOnImageRect |
| ImageExtension.DrawnContentPlacement | ImageResizeExtension/UIImage+Extension.swift:112-132 | for a centred, inset image rectangle, the as-written draw rectangle is mapped inside the canvas, and exactly onto the image rectangle when not transposing |
| ImageExtension.TransposedDrawRectMisplacesContent | ImageResizeExtension/UIImage+Extension.swift:112-132 | a 100x200 image with orientation Left, resized to 100x100, has the image rectangle at x in [25,75], but the drawn rectangle is mapped exactly onto x in [50,100]; its corner (0,0) goes to (100,0), outside the image rectangle |
| ImageExtension.CenteredDrawRectLandsOnImageRect | ImageResizeExtension/UIImage+Extension.swift:112-132 | the corrected draw rectangle, with its origin transposed too, is mapped exactly onto the centred image rectangle for every orientation |
| ImageExtension.LetterboxExample | ImageResizeExtension/ImageSizeCalculator.swift:74-79 | Fit places a 100x200 image in a 100x100 canvas as the 50x100 rectangle at (25,0) |
| ImageExtension.LargeSideRequest | ImageResizeExtension/UIImage+Extension.swift:183-188 | the requested size keeps the image's aspect ratio, and its larger side equals a non-negative largeSide |
| ImageExtension.ResizeToLargeSideEqual | ImageResizeExtension/UIImage+Extension.swift:182-192 | rethrows exactly resizeTo's failure; on success the canvas has the image's aspect ratio and a larger side equal to a non-negative largeSide |
| ImageExtension.LargeSideExample | ImageResizeExtensionTests/ImageResizeExtensionTests.swift:46-49 | 2592x1936 at large side 324 gives 324x242 |
| DiskBudget.CalculateTransformRatio | ImageResizeExtension/UIImage+Extension.swift:76-81 | the ratio is positive, and its square times the squared multiplier is the length ratio needed/existing |
| DiskBudget.RatioDecreasesWithMultiplier | ImageResizeExtension/UIImage+Extension.swift:76-81 | a larger multiplier gives a strictly smaller ratio |
| DiskBudget.RatioBelowOneOverBudget | ImageResizeExtension/UIImage+Extension.swift:76-81 | over budget with a multiplier >= 1, the ratio is < 1 |
| DiskBudget.RatioCanGrowBetweenRounds | ImageResizeExtension/UIImage+Extension.swift:76-81 | the two ratios the first two rounds compute for an original 100 times over budget whose first redraw is 4 times over budget: 1/11 with multiplier 1.1 is smaller than 1/6.2 with multiplier 3.1 |
| DiskBudget.SecondRedrawLarger | ImageResizeExtension/UIImage+Extension.swift:34-47 | through two rounds of Step: when the original is 100 times over budget and its first redraw 4 times over, the second redraw is larger than the first on both axes |
| DiskBudget.Step | ImageResizeExtension/UIImage+Extension.swift:35-47 | one round redraws the original at a size strictly smaller on both axes with its aspect ratio, records the new PNG length, and raises the multiplier by 2.0 |
| DiskBudget.Search | ImageResizeExtension/UIImage+Extension.swift:30-50 | the loop as a recursive function over its state, cut off after a number of rounds; its meaning is given by SearchResult, and ResizeToLessOrEqualDiskSpace is proved equal to it |
| DiskBudget.SearchResult | ImageResizeExtension/UIImage+Extension.swift:30-50 | a returned image fits the budget; it is the starting image only if that already fits, and otherwise a smaller redraw with the original's aspect ratio |
| DiskBudget.ResizeToLessOrEqualDiskSpace | ImageResizeExtension/UIImage+Extension.swift:30-50 | the loop computes Search from the initial state, starting at multiplier 1.1 and adding 2.0 per redraw. It returns the original with no redraw iff its PNG already fits. A returned image fits the budget, and a redrawn one is smaller than the original with its aspect ratio. |

## Left out

- Drawing, bitmap allocation and PNG encoding are foreign CoreGraphics/UIKit calls, so they are left out:
  - UIKit image contexts, `drawInRect`, `CGBitmapContextCreate`, `CGContextConcatCTM` and `CGContextDrawImage`;
  - interpolation quality and screen scale `0.0`;
  - `UIImagePNGRepresentation`.

  The model keeps what is passed to them. PNG lengths are parameters: one for the original, and a function for a redraw at a given size. Whether `CGBitmapContextCreateImage` returned an image is a boolean parameter.
- The force unwraps (`CGImage!`, the bitmap context, the image context and the PNG data) are not modelled; the model assumes each succeeds.
- `CGFloat`/`Double` rounding, `M_PI`, and truncating the canvas to `Int` pixels: the model uses exact reals and quarter turns.
- `sqrt` is a parameter that must return the non-negative square root on non-negative reals. Dafny has no real square root.
- ResizeToLessOrEqualDiskSpace: the source loop has no bound, and its termination would depend on the PNG encoder. The model stops after `maxRounds` rounds and then reports `BoundReached`, which the source cannot return. The method also returns the redraw count and the final multiplier, which the source keeps internal.
- The calculator, `resizeTo` and `resizeToLargeSideEqual` divide by the image's sides unchecked, so positive sizes are a precondition. The disk-budget loop needs a positive budget for the same reason.
- `ImageExtension.ResizeTo` keeps the draw rectangle as written (see Findings). For the transposing orientations it therefore does not promise that content lands on the image rectangle, only that it stays inside the canvas.
- The unused private `makeScaledImage` is pure drawing and is not part of this model.
- The test fixtures and image loading are I/O and are not part of this model.

## Findings

| source | as written | input that shows it | evidently intended | confidence | as-written member | corrected member |
|---|---|---|---|---|---|---|
| ImageResizeExtension/UIImage+Extension.swift:112 | for Left, Right, LeftMirrored and RightMirrored, the draw rectangle swaps width and height but resets the origin to (0,0), dropping the letterbox offset | a 100x200 image with orientation Left, resized to 100x100: the image rectangle is (25,0,50,100), but the content is drawn over x in [50,100] instead of [25,75] | swap the origin's coordinates too, (origin.y, origin.x), so the rotated content is centred like the unrotated one | not executed | ImageExtension.TransposedDrawRectMisplacesContent | ImageExtension.CenteredDrawRectLandsOnImageRect |

`ImageExtension.DrawRect` is the rectangle as written, and `ImageExtension.CenteredDrawRect` is the corrected one.

`resizeToLessOrEqualDiskSpace` does return an image of at most `size` bytes whenever its loop ends, as its name promises. The sizes of its redraws, however, need not shrink from round to round. Each round derives the ratio from the latest PNG length, not the original's, yet always scales the original size. `DiskBudget.SecondRedrawLarger` shows a second redraw larger on both axes than the first. The model follows the code.
