/** Rotation out of the singular value decomposition of a two by two matrix. */
module RotationFit {
  import opened Common
  import opened Plane

  /** The matrix with rows (a b) and (c d). */
  datatype Mat = Mat(a: real, b: real, c: real, d: real)

  datatype Svd = Svd(u: Mat, s1: real, s2: real, v: Mat)

  function Apply(m: Mat, p: Vec): Vec { Vec(m.a * p.x + m.b * p.y, m.c * p.x + m.d * p.y) }

  /** The entry in the first or second row and the first or second column. */
  function At(m: Mat, second: bool, right: bool): real {
    if second then (if right then m.d else m.c) else (if right then m.b else m.a)
  }

  function Determinant(m: Mat): real { m.a * m.d - m.b * m.c }

  /** The matrix keeps every length. */
  ghost predicate Orthogonal(m: Mat) {
    forall p :: NormSq(Apply(m, p)) == NormSq(p)
  }

  /** r is u times the transpose of v. */
  ghost predicate IsProduct(r: Mat, u: Mat, v: Mat) {
    forall i, j :: At(r, i, j) == At(u, i, false) * At(v, j, false) + At(u, i, true) * At(v, j, true)
  }

  /** What a singular value decomposition of h promises: h is U times the singular values times V transposed. */
  ghost predicate IsSvd(h: Mat, f: Svd) {
    && Orthogonal(f.u) && Orthogonal(f.v)
    && f.s1 >= f.s2 >= 0.0
    && forall i, j :: At(h, i, j) ==
         f.s1 * (At(f.u, i, false) * At(f.v, j, false)) + f.s2 * (At(f.u, i, true) * At(f.v, j, true))
  }

  /** The matrix that turns by the angle with cosine c and sine s. */
  function TurnMatrix(c: real, s: real): Mat { Mat(c, -s, s, c) }

  /** The same first column with the second reflected. */
  function MirrorMatrix(c: real, s: real): Mat { Mat(c, s, s, -c) }

  function Factor(mirror: bool, c: real, s: real): Mat {
    if mirror then MirrorMatrix(c, s) else TurnMatrix(c, s)
  }

  lemma SecondColumn(a: real, b: real, c: real, d: real)
    requires a * a + c * c == 1.0 && b * b + d * d == 1.0 && a * b + c * d == 0.0
    ensures (b == -c && d == a) || (b == c && d == -a)
  {
    var e := a * d - b * c;
    var ab, cd := a * b, c * d;
    assert ab == -cd;
    calc {
      b;
      b * (a * a + c * c);
      a * ab + b * c * c;
      a * -cd + b * c * c;
      -(e * c);
    }
    calc {
      d;
      d * (a * a + c * c);
      a * a * d + c * cd;
      a * a * d + c * -ab;
      e * a;
    }
    calc {
      e * e;
      (a * a + c * c) * (b * b + d * d) - (ab + cd) * (ab + cd);
      1.0;
    }
    ZeroProduct(e - 1.0, e + 1.0);
  }

  lemma Columns(m: Mat)
    requires Orthogonal(m)
    ensures m.a * m.a + m.c * m.c == 1.0 && m.b * m.b + m.d * m.d == 1.0 && m.a * m.b + m.c * m.d == 0.0
  {
    var x, y, xy := Vec(1.0, 0.0), Vec(0.0, 1.0), Vec(1.0, 1.0);
    assert Apply(m, x) == Vec(m.a, m.c) && Apply(m, y) == Vec(m.b, m.d) && Apply(m, xy) == Vec(m.a + m.b, m.c + m.d);
    assert NormSq(Apply(m, x)) == NormSq(x) && NormSq(Apply(m, y)) == NormSq(y) && NormSq(Apply(m, xy)) == NormSq(xy);
  }

  /**
   * The factors of a decomposition, given by the angles of their first columns and by
   * whether they reflect; cos and sin are those of the angle between the two columns.
   */
  datatype Angles = Angles(mu: bool, mv: bool, a: real, c: real, p: real, q: real, cos: real, sin: real)

  ghost predicate AnglesOf(u: Mat, v: Mat, t: Angles) {
    && u == Factor(t.mu, t.a, t.c) && v == Factor(t.mv, t.p, t.q)
    && t.cos == t.a * t.p + t.c * t.q && t.sin == t.c * t.p - t.a * t.q
  }

  /** An orthogonal matrix either turns, or turns and reflects. */
  lemma KindOf(m: Mat) returns (mirror: bool)
    requires Orthogonal(m)
    ensures m == Factor(mirror, m.a, m.c) && m.a * m.a + m.c * m.c == 1.0
  {
    Columns(m);
    SecondColumn(m.a, m.b, m.c, m.d);
    mirror := m != TurnMatrix(m.a, m.c);
  }

  lemma FactorAngles(u: Mat, v: Mat) returns (t: Angles)
    requires Orthogonal(u) && Orthogonal(v)
    ensures AnglesOf(u, v, t) && t.cos * t.cos + t.sin * t.sin == 1.0
  {
    var mu := KindOf(u);
    var mv := KindOf(v);
    UnitProducts(u.a, u.c, v.a, v.c);
    t := Angles(mu, mv, u.a, u.c, v.a, v.c, u.a * v.a + u.c * v.c, u.c * v.a - u.a * v.c);
  }

  lemma UnitProducts(a: real, c: real, p: real, q: real)
    requires a * a + c * c == 1.0 && p * p + q * q == 1.0
    ensures (a * p + c * q) * (a * p + c * q) + (c * p - a * q) * (c * p - a * q) == 1.0
  {
    assert (a * p + c * q) * (a * p + c * q) + (c * p - a * q) * (c * p - a * q) == (a * a + c * c) * (p * p + q * q);
  }

  lemma ProductEntries(r: Mat, u: Mat, v: Mat)
    requires IsProduct(r, u, v)
    ensures r.a == u.a * v.a + u.b * v.b && r.b == u.a * v.c + u.b * v.d
    ensures r.c == u.c * v.a + u.d * v.b && r.d == u.c * v.c + u.d * v.d
  {
    assert At(r, false, false) == r.a && At(r, false, true) == r.b && At(r, true, false) == r.c && At(r, true, true) == r.d;
  }

  lemma SecondColumnProducts(u: Mat, v: Mat, t: Angles, e: real)
    requires AnglesOf(u, v, t) && e == if t.mu == t.mv then 1.0 else -1.0
    ensures u.b * v.b == e * (t.c * t.q) && u.b * v.d == -(e * (t.c * t.p))
    ensures u.d * v.b == -(e * (t.a * t.q)) && u.d * v.d == e * (t.a * t.p)
  {
  }

  lemma MirroredDeterminant(a: real, c: real, p: real, q: real, cos: real, sin: real)
    requires cos == a * p + c * q && sin == c * p - a * q && cos * cos + sin * sin == 1.0
    ensures (a * p - c * q) * (c * q - a * p) - (a * q + c * p) * (c * p + a * q) == -1.0
  {
    assert (a * p - c * q) * (c * q - a * p) - (a * q + c * p) * (c * p + a * q)
        == -((a * p + c * q) * (a * p + c * q) + (c * p - a * q) * (c * p - a * q));
  }

  /** The product of the factors, entry by entry. */
  lemma ProductKinds(r: Mat, u: Mat, v: Mat, t: Angles)
    requires IsProduct(r, u, v) && AnglesOf(u, v, t)
    ensures r == if t.mu == t.mv then TurnMatrix(t.cos, t.sin)
                 else Mat(t.a * t.p - t.c * t.q, t.a * t.q + t.c * t.p, t.c * t.p + t.a * t.q, t.c * t.q - t.a * t.p)
  {
    ProductEntries(r, u, v);
    SecondColumnProducts(u, v, t, if t.mu == t.mv then 1.0 else -1.0);
  }

  lemma TurnDeterminant(c: real, s: real)
    ensures Determinant(TurnMatrix(c, s)) == c * c + s * s
  {
  }

  /** Factors of one kind multiply to the rotation between their columns; otherwise the product reflects. */
  lemma ProductOf(r: Mat, u: Mat, v: Mat, t: Angles)
    requires IsProduct(r, u, v) && AnglesOf(u, v, t) && t.cos * t.cos + t.sin * t.sin == 1.0
    ensures t.mu == t.mv ==> r == TurnMatrix(t.cos, t.sin)
    ensures Determinant(r) == if t.mu == t.mv then 1.0 else -1.0
  {
    ProductKinds(r, u, v, t);
    TurnDeterminant(t.cos, t.sin);
    MirroredDeterminant(t.a, t.c, t.p, t.q, t.cos, t.sin);
  }

  lemma SvdEntries(h: Mat, f: Svd)
    requires IsSvd(h, f)
    ensures h.a == f.s1 * (f.u.a * f.v.a) + f.s2 * (f.u.b * f.v.b)
    ensures h.b == f.s1 * (f.u.a * f.v.c) + f.s2 * (f.u.b * f.v.d)
    ensures h.c == f.s1 * (f.u.c * f.v.a) + f.s2 * (f.u.d * f.v.b)
    ensures h.d == f.s1 * (f.u.c * f.v.c) + f.s2 * (f.u.d * f.v.d)
  {
    assert At(h, false, false) == h.a && At(h, false, true) == h.b && At(h, true, false) == h.c && At(h, true, true) == h.d;
  }

  lemma Collect(s1: real, s2: real, e: real, ap: real, cq: real, aq: real, cp: real)
    requires e == 1.0 || e == -1.0
    ensures (s1 * ap + s2 * (e * cq)) + (s1 * cq + s2 * (e * ap)) == (s1 + e * s2) * (ap + cq)
    ensures (s1 * cp + s2 * -(e * aq)) - (s1 * aq + s2 * -(e * cp)) == (s1 + e * s2) * (cp - aq)
  {
  }

  /** The rotation between the columns points along the direction in which h turns vectors. */
  lemma FitAligned(h: Mat, f: Svd, t: Angles) returns (m: real)
    requires IsSvd(h, f) && AnglesOf(f.u, f.v, t)
    ensures m >= 0.0
    ensures h.a + h.d == m * t.cos && h.c - h.b == m * t.sin
  {
    var e := if t.mu == t.mv then 1.0 else -1.0;
    SvdEntries(h, f);
    SecondColumnProducts(f.u, f.v, t, e);
    Collect(f.s1, f.s2, e, t.a * t.p, t.c * t.q, t.a * t.q, t.c * t.p);
    m := f.s1 + e * f.s2;
  }

  /** How well the turn by c and s correlates with h: the trace of its transpose times h. */
  function Correlation(h: Mat, c: real, s: real): real {
    c * (h.a + h.d) + s * (h.c - h.b)
  }

  lemma BestTurn(h: Mat, m: real, a: real, b: real, c: real, s: real)
    requires m >= 0.0 && a * a + b * b == 1.0 && c * c + s * s == 1.0
    requires h.a + h.d == m * a && h.c - h.b == m * b
    ensures Correlation(h, c, s) <= Correlation(h, a, b)
  {
    var cos := c * a + s * b;
    SquareIsPositive(c - a);
    SquareIsPositive(s - b);
    assert (c - a) * (c - a) + (s - b) * (s - b) == 2.0 - 2.0 * cos;
    assert c * (m * a) + s * (m * b) == m * cos;
    assert a * (m * a) + b * (m * b) == m * (a * a + b * b);
    assert m * (1.0 - cos) >= 0.0;
  }

  /** No rotation correlates better with h than the turn by a and b. */
  ghost predicate BestRotation(h: Mat, a: real, b: real) {
    forall c, s | c * c + s * s == 1.0 :: Correlation(h, c, s) <= Correlation(h, a, b)
  }

  lemma AlignedIsBest(h: Mat, m: real, a: real, b: real)
    requires m >= 0.0 && a * a + b * b == 1.0
    requires h.a + h.d == m * a && h.c - h.b == m * b
    ensures BestRotation(h, a, b)
  {
    forall c, s | c * c + s * s == 1.0 ensures Correlation(h, c, s) <= Correlation(h, a, b) {
      BestTurn(h, m, a, b, c, s);
    }
  }

  /** How far h is from treating all directions alike: the square of its correlation at best. */
  function TurnSq(h: Mat): real {
    (h.a + h.d) * (h.a + h.d) + (h.c - h.b) * (h.c - h.b)
  }

  /** No turn correlates better with h than the root of that. */
  lemma CorrelationIsBounded(h: Mat, c: real, s: real, root: real)
    requires c * c + s * s == 1.0 && root >= 0.0 && root * root == TurnSq(h)
    ensures -root <= Correlation(h, c, s) <= root
  {
    var (x, y) := (h.a + h.d, h.c - h.b);
    var corr := c * x + s * y;
    Cauchy(c, s, x, y);
    if corr > root {
      SmallerSquare(root, corr);
    } else if -corr > root {
      SmallerSquare(root, -corr);
    }
  }

  lemma Cauchy(c: real, s: real, x: real, y: real)
    requires c * c + s * s == 1.0
    ensures (c * x + s * y) * (c * x + s * y) <= x * x + y * y
  {
    SquareIsPositive(c * y - s * x);
    assert (c * x + s * y) * (c * x + s * y) + (c * y - s * x) * (c * y - s * x) == (c * c + s * s) * (x * x + y * y);
  }

  lemma SmallerSquare(x: real, y: real)
    requires 0.0 <= x < y
    ensures x * x < y * y
  {
    assert x * (y - x) >= 0.0 && y * (y - x) > 0.0;
  }

  /** The turn that correlates best reaches it. */
  lemma BestCorrelation(h: Mat, a: real, b: real, root: real)
    requires a * a + b * b == 1.0 && BestRotation(h, a, b) && root >= 0.0 && root * root == TurnSq(h)
    ensures Correlation(h, a, b) == root
  {
    CorrelationIsBounded(h, a, b, root);
    var (x, y) := (h.a + h.d, h.c - h.b);
    if root > 0.0 {
      var (c, s) := (x / root, y / root);
      Normalised(x, y, root);
      assert Correlation(h, c, s) <= Correlation(h, a, b);
    } else {
      assert x * x + y * y == 0.0;
      SquareIsPositive(x);
      SquareIsPositive(y);
    }
  }

  lemma Normalised(x: real, y: real, root: real)
    requires root > 0.0 && root * root == x * x + y * y
    ensures (x / root) * (x / root) + (y / root) * (y / root) == 1.0
    ensures (x / root) * x + (y / root) * y == root
  {
    var (c, s) := (x / root, y / root);
    UnitFromProducts(c, s, x, y, root);
  }

  lemma UnitFromProducts(c: real, s: real, x: real, y: real, root: real)
    requires root > 0.0 && root * root == x * x + y * y && x == c * root && y == s * root
    ensures c * c + s * s == 1.0 && c * x + s * y == root
  {
    var n := c * c + s * s;
    assert x * x == c * c * (root * root) && y * y == s * s * (root * root);
    assert (n - 1.0) * (root * root) == 0.0;
    ZeroProduct(n - 1.0, root * root);
    SquareIsPositive(root);
    assert n == 1.0;
    assert c * x == c * c * root && s * y == s * s * root;
    assert n * root == root;
  }

  method TimesTransposed(u: Mat, v: Mat) returns (r: Mat)
    ensures IsProduct(r, u, v)
  {
    r := Mat(u.a * v.a + u.b * v.b, u.a * v.c + u.b * v.d, u.c * v.a + u.d * v.b, u.c * v.c + u.d * v.d);
  }

  /**
   * The rotation taken from a decomposition of h. The determinant fix always yields a
   * proper rotation, and no rotation correlates better with h.
   */
  method ExtractRotation(h: Mat, f: Svd) returns (r: Mat)
    requires IsSvd(h, f)
    ensures r == TurnMatrix(r.a, r.c) && r.a * r.a + r.c * r.c == 1.0
    ensures BestRotation(h, r.a, r.c)
  {
    ghost var t := FactorAngles(f.u, f.v);
    ghost var m := FitAligned(h, f, t);
    AlignedIsBest(h, m, t.cos, t.sin);
    var u := f.u;
    r := TimesTransposed(u, f.v);
    ProductOf(r, u, f.v, t);
    if Determinant(r) < 0.0 {
      u := Mat(u.a, -u.b, u.c, -u.d);
      r := TimesTransposed(u, f.v);
      ProductOf(r, u, f.v, t.(mu := t.mv));
    }
  }
}
