/** Geometry and activation helpers of the character package (util.py). */
module Util {

  datatype Option<+T> = None | Some(value: T)

  /** A value, or the error that stopped its computation. */
  datatype Result<+T, +E> = Ok(value: T) | Err(error: E)

  /** A 2-D point or vector, as a pymunk Vec2d or a raylib Vector2. */
  datatype Vec2 = Vec2(x: real, y: real)

  /** The exponential the sigmoid calls. Its values are never modelled;
      all the model relies on is that it is positive everywhere. */
  type Exp = f: real -> real | forall y :: f(y) > 0.0 witness (y: real) => 1.0

  /** gen_rect_verts: the corners of a width x height box centred on the
      origin, starting at the lower-left one and going clockwise in
      y-up coordinates. */
  function GenRectVerts(width: real, height: real): (verts: seq<Vec2>)
    ensures |verts| == 4
    ensures verts[0] == Vec2(-width / 2.0, -height / 2.0)
    ensures verts[1] == Vec2(-width / 2.0, height / 2.0)
    ensures verts[2] == Vec2(width / 2.0, height / 2.0)
    ensures verts[3] == Vec2(width / 2.0, -height / 2.0)
  {
    [ Vec2(-width / 2.0, -height / 2.0),
      Vec2(-width / 2.0, height / 2.0),
      Vec2(width / 2.0, height / 2.0),
      Vec2(width / 2.0, -height / 2.0) ]
  }

  /** Two corners of the polygon are joined by an axis-parallel edge. */
  predicate AxisNeighbours(p: Vec2, q: Vec2) {
    (p.x == q.x) != (p.y == q.y)
  }

  /** For a box of non-zero size, every edge of the polygon (including the
      closing one) is axis-parallel; the box spans exactly width by height
      and is centred on the origin. */
  lemma RectVertsFormBox(width: real, height: real)
    requires width != 0.0 && height != 0.0
    ensures var v := GenRectVerts(width, height);
      && AxisNeighbours(v[0], v[1]) && AxisNeighbours(v[1], v[2])
      && AxisNeighbours(v[2], v[3]) && AxisNeighbours(v[3], v[0])
      && v[2].x - v[0].x == width && v[2].y - v[0].y == height
      && v[0].x + v[1].x + v[2].x + v[3].x == 0.0
      && v[0].y + v[1].y + v[2].y + v[3].y == 0.0
  {
  }

  /** The np.clip(x, -500, 500) applied before the exponential. */
  function Clamp(x: real): (r: real)
    ensures -500.0 <= r <= 500.0
    ensures -500.0 <= x <= 500.0 ==> r == x
    ensures x < -500.0 ==> r == -500.0
    ensures x > 500.0 ==> r == 500.0
  {
    if x < -500.0 then -500.0 else if x > 500.0 then 500.0 else x
  }

  lemma ClampIdempotent(x: real)
    ensures Clamp(Clamp(x)) == Clamp(x)
  {
  }

  lemma ClampMonotone(x: real, y: real)
    requires x <= y
    ensures Clamp(x) <= Clamp(y)
  {
  }

  /** sigmoid: 1 / (1 + exp(-clip(x))). */
  function Sigmoid(exp: Exp, x: real): (r: real)
    ensures 0.0 < r < 1.0
  {
    var e := exp(-Clamp(x));
    assert e > 0.0;
    var r := 1.0 / (1.0 + e);
    assert r * (1.0 + e) == 1.0;
    r
  }

  /** The sigmoid never sees an argument outside [-500, 500]: inputs beyond
      the range give the same value as the bound. */
  lemma SigmoidSaturates(exp: Exp, x: real)
    ensures x >= 500.0 ==> Sigmoid(exp, x) == Sigmoid(exp, 500.0)
    ensures x <= -500.0 ==> Sigmoid(exp, x) == Sigmoid(exp, -500.0)
    ensures Sigmoid(exp, x) == Sigmoid(exp, Clamp(x))
  {
  }

  /** vec2d_to_arr: the list [x, y]. */
  function Vec2dToArr(v: Vec2): (arr: seq<real>)
    ensures |arr| == 2 && arr[0] == v.x && arr[1] == v.y
  {
    [v.x, v.y]
  }
}
