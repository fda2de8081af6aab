/** Arithmetic of the plane over exact reals. */
module Plane {
  import opened Common

  function Add(p: Vec, q: Vec): Vec { Vec(p.x + q.x, p.y + q.y) }

  function Sub(p: Vec, q: Vec): Vec { Vec(p.x - q.x, p.y - q.y) }

  function Scale(k: real, p: Vec): Vec { Vec(k * p.x, k * p.y) }

  function Dot(p: Vec, q: Vec): real { p.x * q.x + p.y * q.y }

  function NormSq(p: Vec): real { Dot(p, p) }

  /** p turned by the rotation whose cosine and sine are c and s. */
  function Turn(c: real, s: real, p: Vec): Vec { Vec(c * p.x - s * p.y, s * p.x + c * p.y) }

  lemma SquareIsPositive(x: real)
    ensures x * x >= 0.0
    ensures x * x == 0.0 ==> x == 0.0
  {
    if x < 0.0 {
      assert x * x > 0.0;
    } else {
      assert x * x >= 0.0;
    }
    if x != 0.0 {
      assert x == x * x / x;
    }
  }

  lemma ZeroProduct(x: real, y: real)
    requires x * y == 0.0
    ensures x == 0.0 || y == 0.0
  {
    if x != 0.0 {
      assert y == x * y / x;
    }
  }

  lemma NormSqIsPositive(p: Vec)
    ensures NormSq(p) >= 0.0
    ensures NormSq(p) == 0.0 <==> p == Vec(0.0, 0.0)
  {
    SquareIsPositive(p.x);
    SquareIsPositive(p.y);
  }
}
