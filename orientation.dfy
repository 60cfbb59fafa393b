// The orientation correction of `resizeTo`: the affine transform built for
// each of the eight orientation tags, whether the source rectangle has to be
// transposed, and the rectangle the bitmap is drawn into.
//
// A transform is a CGAffineTransform with exact entries. Angles only ever
// are multiples of a quarter turn, so rotations are symbolic and their
// cosines and sines are exact integers.
module OrientationTransform {
  import opened Geometry

  /** UIKit's UIImageOrientation. */
  datatype ImageOrientation =
    | Up | Down | Left | Right
    | UpMirrored | DownMirrored | LeftMirrored | RightMirrored

  /** One step of `CGAffineTransformTranslate`, `...Rotate` or `...Scale`. */
  datatype TransformOp =
    | Translate(tx: real, ty: real)
    | Rotate(quarterTurns: int)  // counter-clockwise, in units of pi/2
    | Scale(sx: real, sy: real)

  /** A CGAffineTransform: (x, y) is mapped to (a*x + c*y + tx, b*x + d*y + ty). */
  datatype AffineTransform = AffineTransform(a: real, b: real, c: real, d: real, tx: real, ty: real)

  const Identity := AffineTransform(1.0, 0.0, 0.0, 1.0, 0.0, 0.0)

  function Apply(t: AffineTransform, p: Point): Point {
    Point(t.a * p.x + t.c * p.y + t.tx, t.b * p.x + t.d * p.y + t.ty)
  }

  /** `CGAffineTransformConcat(t1, t2)`: first `t1`, then `t2`. */
  function Concat(t1: AffineTransform, t2: AffineTransform): AffineTransform {
    AffineTransform(
      t1.a * t2.a + t1.b * t2.c, t1.a * t2.b + t1.b * t2.d,
      t1.c * t2.a + t1.d * t2.c, t1.c * t2.b + t1.d * t2.d,
      t1.tx * t2.a + t1.ty * t2.c + t2.tx, t1.tx * t2.b + t1.ty * t2.d + t2.ty)
  }

  /** The concatenation applies its first transform first. */
  lemma ConcatApplies(t1: AffineTransform, t2: AffineTransform, p: Point)
    ensures Apply(Concat(t1, t2), p) == Apply(t2, Apply(t1, p))
  {
    assert Apply(Concat(t1, t2), p).x == Apply(t2, Apply(t1, p)).x by {
      Compose(t1.a, t1.c, t1.tx, t1.b, t1.d, t1.ty, t2.a, t2.c, t2.tx, p.x, p.y);
    }
    assert Apply(Concat(t1, t2), p).y == Apply(t2, Apply(t1, p)).y by {
      Compose(t1.a, t1.c, t1.tx, t1.b, t1.d, t1.ty, t2.b, t2.d, t2.ty, p.x, p.y);
    }
  }

  /** One output coordinate of a composed affine map, expanded. */
  lemma Compose(a: real, c: real, tx: real, b: real, d: real, ty: real, u: real, v: real, w: real, x: real, y: real)
    ensures (a * u + b * v) * x + (c * u + d * v) * y + (tx * u + ty * v + w) ==
            u * (a * x + c * y + tx) + v * (b * x + d * y + ty) + w
  {
    assert (a * u + b * v) * x == u * (a * x) + v * (b * x);
    assert (c * u + d * v) * y == u * (c * y) + v * (d * y);
    assert u * (a * x + c * y + tx) == u * (a * x) + u * (c * y) + u * tx;
    assert v * (b * x + d * y + ty) == v * (b * x) + v * (d * y) + v * ty;
  }

  /** Cosine of a whole number of quarter turns. */
  function Cos(quarterTurns: int): real {
    match quarterTurns % 4
    case 0 => 1.0
    case 1 => 0.0
    case 2 => -1.0
    case 3 => 0.0
  }

  /** Sine of a whole number of quarter turns. */
  function Sin(quarterTurns: int): real {
    match quarterTurns % 4
    case 0 => 0.0
    case 1 => 1.0
    case 2 => 0.0
    case 3 => -1.0
  }

  /** The matrix of one step, as `CGAffineTransformMake...` builds it. */
  function OpMatrix(op: TransformOp): AffineTransform {
    match op
    case Translate(tx, ty) => AffineTransform(1.0, 0.0, 0.0, 1.0, tx, ty)
    case Rotate(q) => AffineTransform(Cos(q), Sin(q), -Sin(q), Cos(q), 0.0, 0.0)
    case Scale(sx, sy) => AffineTransform(sx, 0.0, 0.0, sy, 0.0, 0.0)
  }

  /** What one step does to a point, stated geometrically and independently of OpMatrix. */
  function ApplyOp(op: TransformOp, p: Point): Point {
    match op
    case Translate(tx, ty) => Point(p.x + tx, p.y + ty)
    case Rotate(q) => Point(p.x * Cos(q) - p.y * Sin(q), p.x * Sin(q) + p.y * Cos(q))
    case Scale(sx, sy) => Point(sx * p.x, sy * p.y)
  }

  /**
   * `CGAffineTransformTranslate(t, ...)` and its siblings: the step is
   * applied to user-space points before `t`.
   */
  function Then(t: AffineTransform, op: TransformOp): AffineTransform {
    Concat(OpMatrix(op), t)
  }

  /** A step's matrix moves points as the step's geometric description says. */
  lemma ThenApplies(t: AffineTransform, op: TransformOp, p: Point)
    ensures Apply(Then(t, op), p) == Apply(t, ApplyOp(op, p))
  {
    ConcatApplies(OpMatrix(op), t, p);
    OpMatrixApplies(op, p);
  }

  lemma OpMatrixApplies(op: TransformOp, p: Point)
    ensures Apply(OpMatrix(op), p) == ApplyOp(op, p)
  {
    match op
    case Translate(tx, ty) =>
      assert Apply(OpMatrix(op), p) == Point(1.0 * p.x + 0.0 * p.y + tx, 0.0 * p.x + 1.0 * p.y + ty);
    case Rotate(q) =>
      var c, s := Cos(q), Sin(q);
      assert OpMatrix(op) == AffineTransform(c, s, -s, c, 0.0, 0.0);
      assert c * p.x + -s * p.y + 0.0 == p.x * c - p.y * s;
      assert s * p.x + c * p.y + 0.0 == p.x * s + p.y * c;
    case Scale(sx, sy) =>
      assert Apply(OpMatrix(op), p) == Point(sx * p.x + 0.0 * p.y + 0.0, 0.0 * p.x + sy * p.y + 0.0);
  }

  /** The transform built by reassigning `transform := Then(transform, op)` for each op in turn. */
  function Build(t: AffineTransform, ops: seq<TransformOp>): AffineTransform
    decreases |ops|
  {
    if ops == [] then t else Build(Then(t, ops[0]), ops[1..])
  }

  /** The op sequence as a map on points: the last op acts on a point first. */
  function ApplyOps(ops: seq<TransformOp>, p: Point): Point
    decreases |ops|
  {
    if ops == [] then p else ApplyOp(ops[0], ApplyOps(ops[1..], p))
  }

  /** Building a transform step by step agrees with composing the steps' point maps. */
  lemma {:induction false} BuildApplies(t: AffineTransform, ops: seq<TransformOp>, p: Point)
    ensures Apply(Build(t, ops), p) == Apply(t, ApplyOps(ops, p))
    decreases |ops|
  {
    if ops != [] {
      BuildApplies(Then(t, ops[0]), ops[1..], p);
      ThenApplies(t, ops[0], ApplyOps(ops[1..], p));
    }
  }

  /** The recipe of `transformForOrientation` for a canvas of size `newSize`. */
  function Recipe(orientation: ImageOrientation, newSize: Size): seq<TransformOp> {
    var w, h := newSize.width, newSize.height;
    match orientation
    case UpMirrored => [Translate(w, 0.0), Scale(-1.0, 1.0)]
    case Down => [Translate(w, h), Rotate(2)]
    case DownMirrored => [Translate(w, h), Rotate(2), Translate(w, 0.0), Scale(-1.0, 1.0)]
    case Left => [Translate(w, 0.0), Rotate(1)]
    case LeftMirrored => [Translate(w, 0.0), Rotate(1), Translate(h, 0.0), Scale(-1.0, 1.0)]
    case Right => [Translate(0.0, h), Rotate(-1)]
    case RightMirrored => [Translate(0.0, h), Rotate(-1), Translate(h, 0.0), Scale(-1.0, 1.0)]
    case Up => []
  }

  /** `transformForOrientation`: the recipe applied to the identity. */
  function TransformForOrientation(orientation: ImageOrientation, newSize: Size): AffineTransform {
    Build(Identity, Recipe(orientation, newSize))
  }

  /** The orientations whose pixel axes are perpendicular to the displayed axes. */
  predicate ShouldTranspose(orientation: ImageOrientation) {
    orientation == Left || orientation == Right ||
    orientation == LeftMirrored || orientation == RightMirrored
  }

  predicate IsMirrored(orientation: ImageOrientation) {
    orientation == UpMirrored || orientation == DownMirrored ||
    orientation == LeftMirrored || orientation == RightMirrored
  }

  /** The unmirrored orientation a mirrored one starts from. */
  function Unmirrored(orientation: ImageOrientation): ImageOrientation {
    match orientation
    case UpMirrored => Up
    case DownMirrored => Down
    case LeftMirrored => Left
    case RightMirrored => Right
    case _ => orientation
  }

  /**
   * Reference table of the eight symmetries, written independently of the
   * recipes: where a point of the (possibly transposed) source ends up in a
   * canvas of size (w, h).
   */
  function Reoriented(orientation: ImageOrientation, newSize: Size, p: Point): Point {
    var w, h := newSize.width, newSize.height;
    match orientation
    case Up => p
    case UpMirrored => Point(w - p.x, p.y)
    case Down => Point(w - p.x, h - p.y)
    case DownMirrored => Point(p.x, h - p.y)
    case Left => Point(w - p.y, p.x)
    case LeftMirrored => Point(w - p.y, h - p.x)
    case Right => Point(p.y, h - p.x)
    case RightMirrored => Point(p.y, p.x)
  }

  /** The upright orientation (the switch's default branch) yields the identity. */
  lemma UpIsIdentity(newSize: Size)
    ensures TransformForOrientation(Up, newSize) == Identity
  {
  }

  /**
   * Every mirrored recipe is its unmirrored recipe followed by a horizontal
   * flip across the canvas width (Up, Down) or the canvas height (Left, Right).
   */
  lemma MirroredRecipes(orientation: ImageOrientation, newSize: Size)
    requires IsMirrored(orientation)
    ensures var d := if ShouldTranspose(orientation) then newSize.height else newSize.width;
      Recipe(orientation, newSize) ==
      Recipe(Unmirrored(orientation), newSize) + [Translate(d, 0.0), Scale(-1.0, 1.0)]
  {
  }

  /** The transform of each orientation moves every point as the reference table says. */
  lemma TransformMatchesTable(orientation: ImageOrientation, newSize: Size, p: Point)
    ensures Apply(TransformForOrientation(orientation, newSize), p) == Reoriented(orientation, newSize, p)
  {
    BuildApplies(Identity, Recipe(orientation, newSize), p);
    RecipeMatchesTable(orientation, newSize, p);
  }

  /** TransformMatchesTable for all points at once. */
  lemma TransformIsTable(orientation: ImageOrientation, newSize: Size)
    ensures forall p :: Apply(TransformForOrientation(orientation, newSize), p) == Reoriented(orientation, newSize, p)
  {
    forall p {
      TransformMatchesTable(orientation, newSize, p);
    }
  }

  /** Composing the recipe's point maps gives the reference table. */
  lemma RecipeMatchesTable(orientation: ImageOrientation, newSize: Size, p: Point)
    ensures ApplyOps(Recipe(orientation, newSize), p) == Reoriented(orientation, newSize, p)
  {
    if IsMirrored(orientation) {
      var base := Recipe(Unmirrored(orientation), newSize);
      var d := if ShouldTranspose(orientation) then newSize.height else newSize.width;
      var flip := [Translate(d, 0.0), Scale(-1.0, 1.0)];
      MirroredRecipes(orientation, newSize);
      ApplyOpsAppend(base, flip, p);
      ApplyPair(flip[0], flip[1], p);
      var q := ApplyOps(flip, p);
      assert q == Point(d - p.x, p.y);
      UnmirroredRecipeMatchesTable(Unmirrored(orientation), newSize, q);
      MirroredTable(orientation, newSize, p);
    } else {
      UnmirroredRecipeMatchesTable(orientation, newSize, p);
    }
  }

  lemma UnmirroredRecipeMatchesTable(orientation: ImageOrientation, newSize: Size, p: Point)
    requires !IsMirrored(orientation)
    ensures ApplyOps(Recipe(orientation, newSize), p) == Reoriented(orientation, newSize, p)
  {
    if orientation != Up {
      var ops := Recipe(orientation, newSize);
      ApplyPair(ops[0], ops[1], p);
    }
  }

  /**
   * In the table, each mirrored orientation is its unmirrored one applied
   * after a horizontal flip across the source width.
   */
  lemma MirroredTable(orientation: ImageOrientation, newSize: Size, p: Point)
    requires IsMirrored(orientation)
    ensures var d := if ShouldTranspose(orientation) then newSize.height else newSize.width;
      Reoriented(orientation, newSize, p) == Reoriented(Unmirrored(orientation), newSize, Point(d - p.x, p.y))
  {
  }

  /** Two steps act on a point as their composition. */
  lemma ApplyPair(first: TransformOp, second: TransformOp, p: Point)
    ensures ApplyOps([first, second], p) == ApplyOp(first, ApplyOp(second, p))
  {
    assert [first, second][1..] == [second];
    assert [second][1..] == [];
    assert ApplyOps([second], p) == ApplyOp(second, ApplyOps([], p));
  }

  /** Running `front + back` on a point runs `back` first, then `front`. */
  lemma {:induction false} ApplyOpsAppend(front: seq<TransformOp>, back: seq<TransformOp>, p: Point)
    ensures ApplyOps(front + back, p) == ApplyOps(front, ApplyOps(back, p))
    decreases |front|
  {
    if front == [] {
      assert front + back == back;
    } else {
      assert (front + back)[1..] == front[1..] + back;
      ApplyOpsAppend(front[1..], back, p);
    }
  }

  /**
   * The transposing orientations are exactly those whose transform turns the
   * source's horizontal axis into the canvas's vertical one: moving along the
   * source's x axis leaves the canvas x coordinate unchanged.
   */
  lemma TransposeIffAxesSwap(orientation: ImageOrientation, newSize: Size)
    ensures var t := TransformForOrientation(orientation, newSize);
      ShouldTranspose(orientation) <==> Apply(t, Point(1.0, 0.0)).x == Apply(t, Point(0.0, 0.0)).x
  {
    TransformIsTable(orientation, newSize);
    AxesSwapFromTable(orientation, newSize, TransformForOrientation(orientation, newSize));
  }

  /** The axis-swap fact for any transform that moves two probe points as the table says. */
  lemma AxesSwapFromTable(orientation: ImageOrientation, newSize: Size, t: AffineTransform)
    requires forall p :: Apply(t, p) == Reoriented(orientation, newSize, p)
    ensures ShouldTranspose(orientation) <==> Apply(t, Point(1.0, 0.0)).x == Apply(t, Point(0.0, 0.0)).x
  {
    assert Apply(t, Point(1.0, 0.0)) == Reoriented(orientation, newSize, Point(1.0, 0.0));
    assert Apply(t, Point(0.0, 0.0)) == Reoriented(orientation, newSize, Point(0.0, 0.0));
  }

  /** The size of the source pixels' box: the canvas, transposed when the orientation says so. */
  function SourceSize(orientation: ImageOrientation, newSize: Size): Size {
    if ShouldTranspose(orientation) then Swapped(newSize) else newSize
  }

  /**
   * The transform is a symmetry between boxes: a point lies in the source box
   * exactly when its image lies in the canvas.
   */
  lemma TransformMapsSourceOntoCanvas(orientation: ImageOrientation, newSize: Size, p: Point)
    ensures InRect(p, Bounds(SourceSize(orientation, newSize))) <==>
            InRect(Apply(TransformForOrientation(orientation, newSize), p), Bounds(newSize))
  {
    TransformMatchesTable(orientation, newSize, p);
  }
}
