/**
 * The camera transform and the rectangular visibility test of GameRender.
 * Both are pure functions of the render-target size and the focus point,
 * recomputed from the current values on every call.
 */
module Viewport {
  import opened Geometry

  /**
   * The translation every camera-relative draw uses: half the render size
   * minus the focus. It is the vector that carries the focus onto the
   * centre of the render target.
   */
  function ScreenOffset(renderSize: Vec2u, focus: Vec2): (offset: Vec2)
    ensures Add(focus, offset) == Vec2(Half(renderSize.x), Half(renderSize.y))
  {
    var baseOffsetX := Half(renderSize.x) - focus.x;
    var baseOffsetY := Half(renderSize.y) - focus.y;
    Vec2(baseOffsetX, baseOffsetY)
  }

  /** Where a world position lands on the render target under the camera translation. */
  function ToScreen(renderSize: Vec2u, focus: Vec2, position: Vec2): Vec2 {
    Add(position, ScreenOffset(renderSize, focus))
  }

  /**
   * The render target `size` enlarged by `margin` on every side, as an open
   * rectangle: a point on its border is outside.
   */
  predicate OnTarget(screen: Vec2, size: Vec2u, margin: real) {
    && -margin < screen.x < size.x as real + margin
    && -margin < screen.y < size.y as real + margin
  }

  /**
   * isVisible(position, radius): both distances to the focus strictly
   * below half the render size plus the radius. Equivalently, the
   * point's screen position lies strictly inside the render target
   * enlarged by the radius on every side.
   */
  function IsVisible(renderSize: Vec2u, focus: Vec2, position: Vec2, radius: real): (visible: bool)
    ensures visible <==> OnTarget(ToScreen(renderSize, focus, position), renderSize, radius)
  {
    var baseOffsetX := Half(renderSize.x);
    var baseOffsetY := Half(renderSize.y);
    var screenPosX := position.x - focus.x;
    var screenPosY := position.y - focus.y;
    Abs(screenPosX) < baseOffsetX + radius && Abs(screenPosY) < baseOffsetY + radius
  }

  /**
   * isVisible(entity): the same test on the entity's coordinate, with the
   * margin fixed at two world cells. `cellSize` is the configuration
   * constant CELL_SIZE.
   */
  function IsEntityVisible(renderSize: Vec2u, focus: Vec2, coord: Vec2, cellSize: real): (visible: bool)
    ensures visible == IsVisible(renderSize, focus, coord, 2.0 * cellSize)
  {
    var baseOffsetX := Half(renderSize.x);
    var baseOffsetY := Half(renderSize.y);
    var screenPosX := coord.x - focus.x;
    var screenPosY := coord.y - focus.y;
    Abs(screenPosX) < baseOffsetX + 2.0 * cellSize && Abs(screenPosY) < baseOffsetY + 2.0 * cellSize
  }

  /** The comparison is strict: a point exactly on the margin, on either axis, is culled. */
  lemma MarginIsExclusive(renderSize: Vec2u, focus: Vec2, position: Vec2, radius: real)
    requires Abs(position.x - focus.x) == Half(renderSize.x) + radius
          || Abs(position.y - focus.y) == Half(renderSize.y) + radius
    ensures !IsVisible(renderSize, focus, position, radius)
  {
  }

  /** A larger radius never culls a point that a smaller one keeps. */
  lemma VisibleMonotoneInRadius(renderSize: Vec2u, focus: Vec2, position: Vec2, r1: real, r2: real)
    requires r1 <= r2
    ensures IsVisible(renderSize, focus, position, r1) ==> IsVisible(renderSize, focus, position, r2)
  {
  }

  /** The focus itself is visible exactly when the margin-enlarged target is non-empty. */
  lemma FocusVisible(renderSize: Vec2u, focus: Vec2, radius: real)
    ensures IsVisible(renderSize, focus, focus, radius)
        <==> (0.0 < Half(renderSize.x) + radius && 0.0 < Half(renderSize.y) + radius)
  {
  }

  /**
   * Half-width 100 and margin 16: a point 115 to the right of the focus is
   * visible, one at 116 (on the margin) or 117 is not.
   */
  lemma CullingMarginExample(focus: Vec2)
    ensures IsVisible(Vec2u(200, 200), focus, Vec2(focus.x + 115.0, focus.y), 16.0)
    ensures !IsVisible(Vec2u(200, 200), focus, Vec2(focus.x + 116.0, focus.y), 16.0)
    ensures !IsVisible(Vec2u(200, 200), focus, Vec2(focus.x + 117.0, focus.y), 16.0)
  {
  }
}
