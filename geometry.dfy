/** Plane vectors and the scalar helpers the render pipeline's arithmetic uses. */
module Geometry {

  /** A world or screen position (sf::Vector2f, Vec2). Floats are modelled as reals. */
  datatype Vec2 = Vec2(x: real, y: real)

  /** A render-target size in pixels (sf::Vector2u). */
  datatype Vec2u = Vec2u(x: nat, y: nat)

  const ORIGIN: Vec2 := Vec2(0.0, 0.0)

  function Add(a: Vec2, b: Vec2): Vec2 {
    Vec2(a.x + b.x, a.y + b.y)
  }

  /** std::abs on a float. */
  function Abs(v: real): (r: real)
    ensures r >= 0.0
    ensures r == v || r == -v
  {
    if v < 0.0 then -v else v
  }

  /** `n * 0.5f` for an unsigned pixel count. */
  function Half(n: nat): (h: real)
    ensures h + h == n as real
  {
    n as real * 0.5
  }
}
