/** The arithmetic of hole handling: the arc radius of `get_hole_radius`
    (qtplasmac_gcode.py:154-186) and the end point of the overcut arc of
    `overburn` (:189-220). Square root, sine and cosine come from the host;
    the lemmas state what they assume of them. */
module Geometry {
  import opened PyNum

  /** `math.sqrt(I ** 2 + J ** 2)`: the radius of an arc given by its
      centre offset. */
  function ArcRadius(host: Host, i: real, j: real): real {
    host.sqrt(i * i + j * j)
  }

  /** Whether an arc asks for a velocity reduction: it is no wider than the
      small-hole diameter, and it is a hole or arcs are treated too. */
  predicate ReductionWanted(radius: real, minDiameter: real, isHole: bool, arcEnable: bool) {
    radius <= minDiameter / 2.0 && (isHole || arcEnable)
  }

  /** The end of the overcut: the start point `(x0, y0)` turned about the
      centre `(x0 + i, y0 + j)` by the angle whose cosine and sine are
      `cosA` and `sinA`, clockwise for a `g2` arc and counter-clockwise
      otherwise. */
  function OverburnEnd(x0: real, y0: real, i: real, j: real, radius: real,
                       cosA: real, sinA: real, clockwise: bool): (real, real)
    requires radius != 0.0
  {
    var cx := x0 + i;
    var cy := y0 + j;
    var cosB := (x0 - cx) / radius;
    var sinB := (y0 - cy) / radius;
    if clockwise then
      (cx + radius * ((cosB * cosA) + (sinB * sinA)), cy + radius * ((sinB * cosA) - (cosB * sinA)))
    else
      (cx + radius * ((cosB * cosA) - (sinB * sinA)), cy + radius * ((sinB * cosA) + (cosB * sinA)))
  }

  /** Relative to the centre, the overcut end is the start vector `(-i, -j)`
      turned by the angle A: clockwise for `g2`, counter-clockwise for
      `g3`. */
  lemma OverburnTurn(x0: real, y0: real, i: real, j: real, radius: real,
                     cosA: real, sinA: real, clockwise: bool)
    requires radius != 0.0
    ensures var e := OverburnEnd(x0, y0, i, j, radius, cosA, sinA, clockwise);
            var ex := e.0 - (x0 + i);
            var ey := e.1 - (y0 + j);
            if clockwise then ex == -i * cosA - j * sinA && ey == i * sinA - j * cosA
            else ex == j * sinA - i * cosA && ey == -j * cosA - i * sinA
  {
    var cx := x0 + i;
    var cy := y0 + j;
    var cosB := (x0 - cx) / radius;
    var sinB := (y0 - cy) / radius;
    assert radius * cosB == -i;
    assert radius * sinB == -j;
    assert radius * ((cosB * cosA) + (sinB * sinA)) == (radius * cosB) * cosA + (radius * sinB) * sinA;
    assert radius * ((sinB * cosA) - (cosB * sinA)) == (radius * sinB) * cosA - (radius * cosB) * sinA;
    assert radius * ((cosB * cosA) - (sinB * sinA)) == (radius * cosB) * cosA - (radius * sinB) * sinA;
    assert radius * ((sinB * cosA) + (cosB * sinA)) == (radius * sinB) * cosA + (radius * cosB) * sinA;
  }

  /** The overcut ends on the circle of the arc: its distance from the
      centre is the radius, given `radius² = I² + J²` and
      `cos²A + sin²A = 1`. */
  lemma OverburnOnCircle(x0: real, y0: real, i: real, j: real, radius: real,
                         cosA: real, sinA: real, clockwise: bool)
    requires radius > 0.0 && radius * radius == i * i + j * j
    requires cosA * cosA + sinA * sinA == 1.0
    ensures var e := OverburnEnd(x0, y0, i, j, radius, cosA, sinA, clockwise);
            (e.0 - (x0 + i)) * (e.0 - (x0 + i)) + (e.1 - (y0 + j)) * (e.1 - (y0 + j)) == radius * radius
  {
    OverburnTurn(x0, y0, i, j, radius, cosA, sinA, clockwise);
    var e := OverburnEnd(x0, y0, i, j, radius, cosA, sinA, clockwise);
    TurnNorm(i, j, radius * radius, e.0 - (x0 + i), e.1 - (y0 + j), cosA, sinA, clockwise);
  }

  /** Turning `(-i, -j)` by A keeps its squared length. */
  lemma TurnNorm(i: real, j: real, r2: real, ex: real, ey: real, cosA: real, sinA: real, clockwise: bool)
    requires r2 == i * i + j * j && cosA * cosA + sinA * sinA == 1.0
    requires clockwise ==> ex == -i * cosA - j * sinA && ey == i * sinA - j * cosA
    requires !clockwise ==> ex == j * sinA - i * cosA && ey == -j * cosA - i * sinA
    ensures ex * ex + ey * ey == r2
  {
    assert ex * ex + ey * ey == (i * i + j * j) * (cosA * cosA + sinA * sinA);
  }

  /** The turn goes the way the arc goes: the cross product of the start
      and end vectors is `-radius² sin A` for a clockwise arc and
      `radius² sin A` for a counter-clockwise one, and their dot product is
      `radius² cos A`. */
  lemma OverburnDirection(x0: real, y0: real, i: real, j: real, radius: real,
                          cosA: real, sinA: real, clockwise: bool)
    requires radius != 0.0 && radius * radius == i * i + j * j
    ensures var e := OverburnEnd(x0, y0, i, j, radius, cosA, sinA, clockwise);
            var ex := e.0 - (x0 + i);
            var ey := e.1 - (y0 + j);
            (-i) * ex + (-j) * ey == radius * radius * cosA
            && (-i) * ey - (-j) * ex == (if clockwise then -(radius * radius * sinA) else radius * radius * sinA)
  {
    OverburnTurn(x0, y0, i, j, radius, cosA, sinA, clockwise);
    var e := OverburnEnd(x0, y0, i, j, radius, cosA, sinA, clockwise);
    TurnProducts(i, j, radius * radius, e.0 - (x0 + i), e.1 - (y0 + j), cosA, sinA, clockwise);
  }

  /** Dot and cross product of `(-i, -j)` with itself turned by A. */
  lemma TurnProducts(i: real, j: real, r2: real, ex: real, ey: real, cosA: real, sinA: real, clockwise: bool)
    requires r2 == i * i + j * j
    requires clockwise ==> ex == -i * cosA - j * sinA && ey == i * sinA - j * cosA
    requires !clockwise ==> ex == j * sinA - i * cosA && ey == -j * cosA - i * sinA
    ensures (-i) * ex + (-j) * ey == r2 * cosA
    ensures (-i) * ey - (-j) * ex == (if clockwise then -(r2 * sinA) else r2 * sinA)
  {
    if clockwise {
      assert (-i) * ex == i * i * cosA + i * j * sinA;
      assert (-j) * ey == j * j * cosA - i * j * sinA;
      assert (-i) * ey == -(i * i * sinA) + i * j * cosA;
      assert (-j) * ex == i * j * cosA + j * j * sinA;
    } else {
      assert (-i) * ex == i * i * cosA - i * j * sinA;
      assert (-j) * ey == j * j * cosA + i * j * sinA;
      assert (-i) * ey == i * j * cosA + i * i * sinA;
      assert (-j) * ex == i * j * cosA - j * j * sinA;
    }
  }
}
