/**
 * Where one extracted text item is placed on the text layer: the closure in
 * `renderTextItems` that turns the viewport's view box, the page rotation and
 * the item's six-number transform into a `{top, left, height}` record, in
 * document units (the caller multiplies by the display scale).
 */
module FragmentPosition {

  /** The viewport's `viewBox`, `[xMin, yMin, xMax, yMax]`. */
  datatype ViewBox = ViewBox(xMin: real, yMin: real, xMax: real, yMax: real)

  /** The unrotated viewport as the text layer reads it: its view box and its rotation in degrees. */
  datatype Viewport = Viewport(viewBox: ViewBox, rotation: int)

  /**
   * A text item's `transform`, `[fontHeightPx, fontWidthPx, width, height, x, y]`;
   * the first two components take no part in the placement.
   */
  datatype Transform = Transform(fontHeight: real, fontWidth: real, width: real, height: real, x: real, y: real)

  /** The placement of one fragment: `top`, `left` and the rendered `height`. */
  datatype Rect = Rect(top: real, left: real, height: real)

  /**
   * JavaScript's `rotation % 360`. The remainder is truncated toward zero, so
   * it keeps the sign of `rotation`: a negative rotation stays negative.
   */
  function ReduceRotation(rotation: int): (r: int)
    ensures rotation >= 0 ==> 0 <= r < 360
    ensures rotation < 0 ==> -360 < r <= 0
    ensures (rotation - r) % 360 == 0
  {
    if rotation >= 0 then rotation % 360 else -((-rotation) % 360)
  }

  /**
   * The quarter turn a reduced rotation stands for: 0 for [0, 90) and for every
   * negative remainder, 1 for [90, 180), 2 for [180, 270), 3 for [270, 360).
   */
  function Quarter(reduced: int): (q: nat)
    requires -360 < reduced < 360
    ensures q < 4
    ensures reduced >= 0 ==> 90 * q <= reduced < 90 * q + 90
    ensures reduced < 0 ==> q == 0
  {
    if reduced < 0 then 0 else reduced / 90
  }

  /**
   * The placement closure itself, given the already reduced rotation: four
   * tests tried top-down. In the first and third branch the rendered height is
   * the item's width, because the text then runs across the page.
   */
  function FragmentRect(vb: ViewBox, rotation: int, t: Transform): Rect
  {
    if rotation >= 270 then
      Rect(vb.xMax - t.x - t.width, vb.yMax - t.y, t.width)
    else if rotation >= 180 then
      Rect(vb.yMin + t.y, vb.xMax - t.x, t.height)
    else if rotation >= 90 then
      Rect(vb.xMin + t.x, vb.yMin + t.y, t.width)
    else
      Rect(vb.yMax - t.y - t.height, t.x + vb.xMin, t.height)
  }

  /** The placement of an item under a viewport: the rotation is reduced once, then the closure applied. */
  function ItemRect(vp: Viewport, t: Transform): Rect
  {
    FragmentRect(vp.viewBox, ReduceRotation(vp.rotation), t)
  }

  /** The placement table, one row per quarter turn, written independently of the cascade of tests. */
  function QuarterRect(vb: ViewBox, q: nat, t: Transform): Rect
    requires q < 4
  {
    match q
    case 0 => Rect(vb.yMax - t.y - t.height, vb.xMin + t.x, t.height)
    case 1 => Rect(vb.xMin + t.x, vb.yMin + t.y, t.width)
    case 2 => Rect(vb.yMin + t.y, vb.xMax - t.x, t.height)
    case 3 => Rect(vb.xMax - t.x - t.width, vb.yMax - t.y, t.width)
  }

  /** Turns the vector `(a, b)` by `k` quarter turns, each taking `(a, b)` to `(b, -a)`. */
  function Turn(k: nat, a: real, b: real): (real, real)
  {
    if k == 0 then (a, b) else Turn(k - 1, b, -a)
  }

  /**
   * The cascade of tests selects exactly the table row of the quarter the
   * reduced rotation falls in; a negative remainder selects the unrotated row.
   */
  lemma ItemRectByQuarter(vp: Viewport, t: Transform)
    ensures ItemRect(vp, t) == QuarterRect(vp.viewBox, Quarter(ReduceRotation(vp.rotation)), t)
  {
  }

  /** The placement reads only `width`, `height`, `x` and `y` of the transform. */
  lemma FontComponentsIgnored(vp: Viewport, t: Transform, fontHeight: real, fontWidth: real)
    ensures ItemRect(vp, t.(fontHeight := fontHeight, fontWidth := fontWidth)) == ItemRect(vp, t)
  {
  }

  /** Rotations in the same quarter, after reduction, place every item identically. */
  lemma SameQuarterSamePlacement(vp1: Viewport, vp2: Viewport, t: Transform)
    requires vp1.viewBox == vp2.viewBox
    requires Quarter(ReduceRotation(vp1.rotation)) == Quarter(ReduceRotation(vp2.rotation))
    ensures ItemRect(vp1, t) == ItemRect(vp2, t)
  {
  }

  /** The rendered height is the item's width exactly in the odd quarters, where the text runs across. */
  lemma RenderedHeightFollowsText(vp: Viewport, t: Transform)
    ensures ItemRect(vp, t).height == if Quarter(ReduceRotation(vp.rotation)) % 2 == 1 then t.width else t.height
  {
  }

  /** Whole turns added to a non-negative rotation do not move any fragment. */
  lemma FullTurnsIgnored(vp: Viewport, t: Transform, k: nat)
    requires vp.rotation >= 0
    ensures ItemRect(vp.(rotation := vp.rotation + 360 * k), t) == ItemRect(vp, t)
  {
  }

  /** Every negative rotation leaves a non-positive remainder and so places items as rotation 0 does. */
  lemma NegativeRotationIsUnrotated(vp: Viewport, t: Transform)
    requires vp.rotation < 0
    ensures ItemRect(vp, t) == ItemRect(vp.(rotation := 0), t)
  {
  }

  /** Unlike a floored remainder, JavaScript's does not take -90 to 270: the two placements differ. */
  lemma NegativeRotationIsNotPeriodic()
    ensures var vb := ViewBox(0.0, 0.0, 100.0, 200.0);
            var t := Transform(0.0, 0.0, 10.0, 5.0, 20.0, 30.0);
            ItemRect(Viewport(vb, -90), t) != ItemRect(Viewport(vb, 270), t)
  {
  }

  /**
   * Moving the item by `(dx, dy)` moves its fragment rigidly, `(top, left)`
   * shifting by `(dx, dy)` turned by a number of quarter turns that grows by one
   * with each quarter of page rotation; the rendered height does not change.
   */
  lemma MovingItemTurnsWithRotation(vp: Viewport, t: Transform, dx: real, dy: real)
    ensures var q := Quarter(ReduceRotation(vp.rotation));
            var d := Turn((q + 3) % 4, dx, dy);
            var before := ItemRect(vp, t);
            var after := ItemRect(vp, t.(x := t.x + dx, y := t.y + dy));
            after == Rect(before.top + d.0, before.left + d.1, before.height)
  {
    var q := Quarter(ReduceRotation(vp.rotation));
    ItemRectByQuarter(vp, t);
    ItemRectByQuarter(vp, t.(x := t.x + dx, y := t.y + dy));
    if q == 0 {
      calc {
        Turn(3, dx, dy);
        Turn(2, dy, -dx);
        Turn(1, -dx, -dy);
        Turn(0, -dy, dx);
      }
    } else if q == 1 {
      assert Turn(0, dx, dy) == (dx, dy);
    } else if q == 2 {
      assert Turn(1, dx, dy) == (dy, -dx);
    } else {
      calc {
        Turn(2, dx, dy);
        Turn(1, dy, -dx);
        Turn(0, -dx, -dy);
      }
    }
  }

  /**
   * Half a turn apart, two placements mirror each other through the centre of
   * the view box: their `left` values sum to `xMin + xMax` (for the quarters 0
   * and 2) or `yMin + yMax` (for 1 and 3), and their `top` values to the other
   * of the two sums less the rendered height.
   */
  lemma HalfTurnMirrors(vb: ViewBox, rotation: int, t: Transform)
    requires 0 <= rotation < 180
    ensures var a := FragmentRect(vb, rotation, t);
            var b := FragmentRect(vb, rotation + 180, t);
            a.height == b.height &&
            a.left + b.left == (if rotation < 90 then vb.xMin + vb.xMax else vb.yMin + vb.yMax) &&
            a.top + b.top == (if rotation < 90 then vb.yMin + vb.yMax else vb.xMin + vb.xMax) - a.height
  {
  }

  /** The four placements of one item in a 100 by 200 view box, one per quarter turn. */
  lemma WorkedExamples()
    ensures var vb := ViewBox(0.0, 0.0, 100.0, 200.0);
            var t := Transform(0.0, 0.0, 10.0, 5.0, 20.0, 30.0);
            ItemRect(Viewport(vb, 0), t) == Rect(165.0, 20.0, 5.0) &&
            ItemRect(Viewport(vb, 90), t) == Rect(20.0, 30.0, 10.0) &&
            ItemRect(Viewport(vb, 180), t) == Rect(30.0, 80.0, 5.0) &&
            ItemRect(Viewport(vb, 270), t) == Rect(70.0, 170.0, 10.0)
  {
  }
}
