/** Estimation of the similarity that carries the fleet's coordinates to the robot's. */
module CoordinateTransform {
  import opened Common
  import opened Plane
  import opened RotationFit

  /** The numerical library: square roots and singular value decompositions. */
  datatype Numerics = Numerics(sqrt: real -> real, svd: Mat -> Svd) {
    ghost predicate Valid() {
      && (forall x | x >= 0.0 :: sqrt(x) >= 0.0 && sqrt(x) * sqrt(x) == x)
      && (forall h :: IsSvd(h, svd(h)))
    }
  }

  /** Turn by the angle with the given cosine and sine, scale, then translate. */
  datatype Similarity = Similarity(cos: real, sin: real, scale: real, translation: Vec)

  function Map(t: Similarity, p: Vec): Vec {
    Add(Scale(t.scale, Turn(t.cos, t.sin, p)), t.translation)
  }

  ghost predicate ProperTurn(t: Similarity) {
    t.cos * t.cos + t.sin * t.sin == 1.0
  }

  /** Exception, division by zero, or a similarity. */
  datatype Estimate = InvalidArgument | NotFinite | Estimated(t: Similarity)

  // ----- sums over the first n points -----

  ghost function Sum(ps: seq<Vec>, n: nat): Vec
    requires n <= |ps|
  {
    if n == 0 then Vec(0.0, 0.0) else Add(Sum(ps, n - 1), ps[n - 1])
  }

  ghost function Mean(ps: seq<Vec>): Vec
    requires ps != []
  {
    Scale(1.0 / |ps| as real, Sum(ps, |ps|))
  }

  ghost function DistanceSum(num: Numerics, ps: seq<Vec>, c: Vec, n: nat): real
    requires n <= |ps|
  {
    if n == 0 then 0.0 else DistanceSum(num, ps, c, n - 1) + Distance(num, ps[n - 1], c)
  }

  /** The second factor's row times the first factor's column: q times the transpose of p. */
  function Outer(q: Vec, p: Vec): Mat { Mat(q.x * p.x, q.x * p.y, q.y * p.x, q.y * p.y) }

  function Plus(m: Mat, n: Mat): Mat { Mat(m.a + n.a, m.b + n.b, m.c + n.c, m.d + n.d) }

  /** Count, sums, sums of squares and cross products of two point lists about their centres. */
  datatype Moments = Moments(n: real, p: Vec, q: Vec, pp: real, qq: real, cross: Mat)

  function Combine(m: Moments, m': Moments): Moments {
    Moments(m.n + m'.n, Add(m.p, m'.p), Add(m.q, m'.q), m.pp + m'.pp, m.qq + m'.qq, Plus(m.cross, m'.cross))
  }

  function MomentsOf(p: Vec, q: Vec): Moments {
    Moments(1.0, p, q, NormSq(p), NormSq(q), Outer(q, p))
  }

  ghost function MomentSum(ps: seq<Vec>, qs: seq<Vec>, pc: Vec, qc: Vec, n: nat): Moments
    requires n <= |ps| == |qs|
  {
    if n == 0 then Moments(0.0, Vec(0.0, 0.0), Vec(0.0, 0.0), 0.0, 0.0, Mat(0.0, 0.0, 0.0, 0.0))
    else Combine(MomentSum(ps, qs, pc, qc, n - 1), MomentsOf(Sub(ps[n - 1], pc), Sub(qs[n - 1], qc)))
  }

  /** Sum of squared distances between where t puts the points of ps and where they should be. */
  ghost function Cost(ps: seq<Vec>, qs: seq<Vec>, t: Similarity, n: nat): real
    requires n <= |ps| == |qs|
  {
    if n == 0 then 0.0 else Cost(ps, qs, t, n - 1) + NormSq(Sub(Map(t, ps[n - 1]), qs[n - 1]))
  }

  /** No rotation and translation at the same scale fits better. */
  ghost predicate LeastSquares(ps: seq<Vec>, qs: seq<Vec>, t: Similarity)
    requires |ps| == |qs|
  {
    forall other: Similarity | ProperTurn(other) && other.scale == t.scale ::
      Cost(ps, qs, t, |ps|) <= Cost(ps, qs, other, |ps|)
  }

  // ----- the cost in terms of the sums -----

  /** How far t misplaces p once both centres are taken out. */
  function Deviation(t: Similarity, p: Vec, q: Vec): Vec {
    Sub(Scale(t.scale, Turn(t.cos, t.sin, p)), q)
  }

  /** Where t puts pc, seen from qc. */
  function Offset(t: Similarity, pc: Vec, qc: Vec): Vec {
    Sub(Map(t, pc), qc)
  }

  /** The cost of points with moments m whose centres are misplaced by e. */
  function MomentCost(t: Similarity, m: Moments, e: Vec): real {
    t.scale * t.scale * m.pp + m.qq - 2.0 * t.scale * Correlation(m.cross, t.cos, t.sin)
    + m.n * NormSq(e) + 2.0 * Dot(e, Deviation(t, m.p, m.q))
  }

  lemma TermOfCost(t: Similarity, p: Vec, q: Vec, e: Vec)
    requires ProperTurn(t)
    ensures NormSq(Add(Deviation(t, p, q), e)) == MomentCost(t, MomentsOf(p, q), e)
  {
    hide Correlation, NormSq, Dot, Turn, Scale, Add, Sub, Outer;
    var turned := Turn(t.cos, t.sin, p);
    NormSqAdds(Deviation(t, p, q), e);
    NormSqSubs(Scale(t.scale, turned), q);
    ScaleSquares(t.scale, turned, q);
    TurnKeepsLength(t.cos, t.sin, p);
    TurnDot(t.cos, t.sin, p, q);
    Associate(2.0, t.scale, Correlation(Outer(q, p), t.cos, t.sin));
  }

  lemma NormSqAdds(p: Vec, q: Vec)
    ensures NormSq(Add(p, q)) == NormSq(p) + NormSq(q) + 2.0 * Dot(q, p)
  {
  }

  lemma NormSqSubs(p: Vec, q: Vec)
    ensures NormSq(Sub(p, q)) == NormSq(p) + NormSq(q) - 2.0 * Dot(p, q)
  {
  }

  lemma ScaleSquares(k: real, p: Vec, q: Vec)
    ensures NormSq(Scale(k, p)) == k * k * NormSq(p)
    ensures Dot(Scale(k, p), q) == k * Dot(p, q)
  {
  }

  lemma TurnKeepsLength(c: real, s: real, p: Vec)
    requires c * c + s * s == 1.0
    ensures NormSq(Turn(c, s, p)) == NormSq(p)
  {
    assert NormSq(Turn(c, s, p)) == (c * c + s * s) * (p.x * p.x + p.y * p.y);
  }

  lemma TurnDot(c: real, s: real, p: Vec, q: Vec)
    ensures Dot(Turn(c, s, p), q) == Correlation(Outer(q, p), c, s)
  {
  }

  lemma Associate(x: real, y: real, z: real)
    ensures x * y * z == x * (y * z)
  {
  }

  lemma TurnLinear(c: real, s: real, p: Vec, q: Vec)
    ensures Turn(c, s, Add(p, q)) == Add(Turn(c, s, p), Turn(c, s, q))
    ensures Turn(c, s, Sub(p, q)) == Sub(Turn(c, s, p), Turn(c, s, q))
  {
  }

  lemma ScaleLinear(k: real, p: Vec, q: Vec)
    ensures Scale(k, Add(p, q)) == Add(Scale(k, p), Scale(k, q))
    ensures Scale(k, Sub(p, q)) == Sub(Scale(k, p), Scale(k, q))
  {
  }

  lemma Regroup(a: Vec, b: Vec, q: Vec, t: Vec, qc: Vec)
    ensures Sub(Add(a, t), q) == Add(Sub(Sub(a, b), Sub(q, qc)), Sub(Add(b, t), qc))
  {
  }

  lemma Misplaced(t: Similarity, p: Vec, q: Vec, pc: Vec, qc: Vec)
    ensures Sub(Map(t, p), q) == Add(Deviation(t, Sub(p, pc), Sub(q, qc)), Offset(t, pc, qc))
  {
    var x, y := Turn(t.cos, t.sin, p), Turn(t.cos, t.sin, pc);
    TurnLinear(t.cos, t.sin, p, pc);
    ScaleLinear(t.scale, x, y);
    Regroup(Scale(t.scale, x), Scale(t.scale, y), q, t.translation, qc);
  }

  lemma Distribute(x: real, y: real, z: real)
    ensures x * (y + z) == x * y + x * z
  {
  }

  lemma CorrelationAdds(h: Mat, h': Mat, c: real, s: real)
    ensures Correlation(Plus(h, h'), c, s) == Correlation(h, c, s) + Correlation(h', c, s)
  {
    Distribute(c, h.a + h.d, h'.a + h'.d);
    Distribute(s, h.c - h.b, h'.c - h'.b);
  }

  lemma Interleave(a: Vec, b: Vec, q: Vec, q': Vec)
    ensures Sub(Add(a, b), Add(q, q')) == Add(Sub(a, q), Sub(b, q'))
  {
  }

  lemma DeviationAdds(t: Similarity, p: Vec, q: Vec, p': Vec, q': Vec)
    ensures Deviation(t, Add(p, p'), Add(q, q')) == Add(Deviation(t, p, q), Deviation(t, p', q'))
  {
    var x, y := Turn(t.cos, t.sin, p), Turn(t.cos, t.sin, p');
    TurnLinear(t.cos, t.sin, p, p');
    ScaleLinear(t.scale, x, y);
    Interleave(Scale(t.scale, x), Scale(t.scale, y), q, q');
  }

  lemma DotAdds(e: Vec, d: Vec, d': Vec)
    ensures Dot(e, Add(d, d')) == Dot(e, d) + Dot(e, d')
  {
    Distribute(e.x, d.x, d'.x);
    Distribute(e.y, d.y, d'.y);
  }

  lemma MomentCostAdds(t: Similarity, m: Moments, m': Moments, e: Vec)
    ensures MomentCost(t, Combine(m, m'), e) == MomentCost(t, m, e) + MomentCost(t, m', e)
  {
    Distribute(t.scale * t.scale, m.pp, m'.pp);
    CorrelationAdds(m.cross, m'.cross, t.cos, t.sin);
    Distribute(2.0 * t.scale, Correlation(m.cross, t.cos, t.sin), Correlation(m'.cross, t.cos, t.sin));
    Distribute(NormSq(e), m.n, m'.n);
    DeviationAdds(t, m.p, m.q, m'.p, m'.q);
    DotAdds(e, Deviation(t, m.p, m.q), Deviation(t, m'.p, m'.q));
  }

  /** The cost depends on the points only through their moments. */
  lemma {:induction false} CostByMoments(ps: seq<Vec>, qs: seq<Vec>, pc: Vec, qc: Vec, t: Similarity, n: nat)
    requires n <= |ps| == |qs| && ProperTurn(t)
    ensures Cost(ps, qs, t, n) == MomentCost(t, MomentSum(ps, qs, pc, qc, n), Offset(t, pc, qc))
  {
    if n > 0 {
      CostByMoments(ps, qs, pc, qc, t, n - 1);
      var p, q, e := ps[n - 1], qs[n - 1], Offset(t, pc, qc);
      Misplaced(t, p, q, pc, qc);
      TermOfCost(t, Sub(p, pc), Sub(q, qc), e);
      MomentCostAdds(t, MomentSum(ps, qs, pc, qc, n - 1), MomentsOf(Sub(p, pc), Sub(q, qc)), e);
    }
  }

  // ----- centring -----

  const ZERO: Vec := Vec(0.0, 0.0)

  lemma CenteredStep(sum: Vec, p: Vec, c: Vec, k: real)
    ensures Sub(Add(sum, p), Scale(k + 1.0, c)) == Add(Sub(sum, Scale(k, c)), Sub(p, c))
  {
  }

  lemma {:induction false} CenteredSums(ps: seq<Vec>, qs: seq<Vec>, pc: Vec, qc: Vec, n: nat)
    requires n <= |ps| == |qs|
    ensures MomentSum(ps, qs, pc, qc, n).n == n as real
    ensures MomentSum(ps, qs, pc, qc, n).p == Sub(Sum(ps, n), Scale(n as real, pc))
    ensures MomentSum(ps, qs, pc, qc, n).q == Sub(Sum(qs, n), Scale(n as real, qc))
  {
    if n > 0 {
      CenteredSums(ps, qs, pc, qc, n - 1);
      CenteredStep(Sum(ps, n - 1), ps[n - 1], pc, (n - 1) as real);
      CenteredStep(Sum(qs, n - 1), qs[n - 1], qc, (n - 1) as real);
      assert (n - 1) as real + 1.0 == n as real;
    }
  }

  lemma MeanTimesCount(ps: seq<Vec>)
    requires ps != []
    ensures Scale(|ps| as real, Mean(ps)) == Sum(ps, |ps|)
  {
    var n, sum := |ps| as real, Sum(ps, |ps|);
    assert n * (1.0 / n * sum.x) == sum.x && n * (1.0 / n * sum.y) == sum.y;
  }

  /** Moments about the means. */
  ghost function Centered(ps: seq<Vec>, qs: seq<Vec>): (m: Moments)
    requires |ps| == |qs| && ps != []
  {
    MomentSum(ps, qs, Mean(ps), Mean(qs), |ps|)
  }

  lemma CenteredIsZero(ps: seq<Vec>, qs: seq<Vec>)
    requires |ps| == |qs| && ps != []
    ensures Centered(ps, qs).p == ZERO && Centered(ps, qs).q == ZERO && Centered(ps, qs).n >= 0.0
  {
    CenteredSums(ps, qs, Mean(ps), Mean(qs), |ps|);
    MeanTimesCount(ps);
    MeanTimesCount(qs);
  }

  /** The cost about the means: spread, correlation, and offset of the centres. */
  function CenteredCost(t: Similarity, m: Moments, e: Vec): real {
    t.scale * t.scale * m.pp + m.qq - 2.0 * t.scale * Correlation(m.cross, t.cos, t.sin) + m.n * NormSq(e)
  }

  lemma NoDrift(t: Similarity, m: Moments, e: Vec)
    requires m.p == ZERO && m.q == ZERO
    ensures MomentCost(t, m, e) == CenteredCost(t, m, e)
  {
    assert Deviation(t, ZERO, ZERO) == ZERO;
  }

  lemma CostAboutMeans(ps: seq<Vec>, qs: seq<Vec>, t: Similarity)
    requires |ps| == |qs| && ps != [] && ProperTurn(t)
    ensures Cost(ps, qs, t, |ps|) == CenteredCost(t, Centered(ps, qs), Offset(t, Mean(ps), Mean(qs)))
  {
    CostByMoments(ps, qs, Mean(ps), Mean(qs), t, |ps|);
    CenteredIsZero(ps, qs);
    NoDrift(t, Centered(ps, qs), Offset(t, Mean(ps), Mean(qs)));
  }

  lemma LessByScalars(k: real, pp: real, qq: real, x: real, y: real, n: real, e: real)
    requires k >= 0.0 && x <= y && n >= 0.0 && e >= 0.0
    ensures k * k * pp + qq - 2.0 * k * y + n * 0.0 <= k * k * pp + qq - 2.0 * k * x + n * e
  {
    Ordered(2.0 * k, x, y);
    Ordered(n, 0.0, e);
  }

  lemma LessCorrelated(t: Similarity, other: Similarity, m: Moments, e: Vec)
    requires t.scale == other.scale >= 0.0 && m.n >= 0.0
    requires Correlation(m.cross, other.cos, other.sin) <= Correlation(m.cross, t.cos, t.sin)
    ensures CenteredCost(t, m, ZERO) <= CenteredCost(other, m, e)
  {
    hide Correlation, NormSq;
    var k, x, y := t.scale, Correlation(m.cross, other.cos, other.sin), Correlation(m.cross, t.cos, t.sin);
    NormSqIsPositive(e);
    NormSqIsPositive(ZERO);
    assert CenteredCost(t, m, ZERO) == k * k * m.pp + m.qq - 2.0 * k * y + m.n * 0.0;
    assert CenteredCost(other, m, e) == k * k * m.pp + m.qq - 2.0 * k * x + m.n * NormSq(e);
    hide CenteredCost;
    LessByScalars(k, m.pp, m.qq, x, y, m.n, NormSq(e));
  }

  lemma NoBetter(ps: seq<Vec>, qs: seq<Vec>, t: Similarity, other: Similarity)
    requires |ps| == |qs| && ps != [] && ProperTurn(t) && ProperTurn(other) && t.scale == other.scale >= 0.0
    requires BestRotation(Centered(ps, qs).cross, t.cos, t.sin)
    requires Offset(t, Mean(ps), Mean(qs)) == ZERO
    ensures Cost(ps, qs, t, |ps|) <= Cost(ps, qs, other, |ps|)
  {
    hide CenteredCost, Correlation;
    CostAboutMeans(ps, qs, t);
    CostAboutMeans(ps, qs, other);
    CenteredIsZero(ps, qs);
    LessCorrelated(t, other, Centered(ps, qs), Offset(other, Mean(ps), Mean(qs)));
  }

  /** With the centres matched and the best rotation, nothing fits better at the same scale. */
  lemma BestRotationFits(ps: seq<Vec>, qs: seq<Vec>, t: Similarity)
    requires |ps| == |qs| && ps != [] && ProperTurn(t) && t.scale >= 0.0
    requires BestRotation(Centered(ps, qs).cross, t.cos, t.sin)
    requires Offset(t, Mean(ps), Mean(qs)) == ZERO
    ensures LeastSquares(ps, qs, t)
  {
    forall other: Similarity | ProperTurn(other) && other.scale == t.scale
      ensures Cost(ps, qs, t, |ps|) <= Cost(ps, qs, other, |ps|)
    {
      NoBetter(ps, qs, t, other);
    }
  }

  lemma Ordered(k: real, x: real, y: real)
    requires k >= 0.0 && x <= y
    ensures k * x <= k * y
  {
    assert k * (y - x) >= 0.0;
  }

  // ----- distances -----

  ghost predicate Coincide(ps: seq<Vec>) {
    forall i, j | 0 <= i < |ps| && 0 <= j < |ps| :: ps[i] == ps[j]
  }

  /** The result for two or more points: a proper rotation, the ratio of distance sums, and a least-squares fit at that scale. */
  ghost predicate Fits(num: Numerics, ps: seq<Vec>, qs: seq<Vec>, t: Similarity)
    requires |ps| == |qs| && ps != []
  {
    && ProperTurn(t)
    && t.scale * DistanceSum(num, ps, Mean(ps), |ps|) == DistanceSum(num, qs, Mean(qs), |qs|)
    && Offset(t, Mean(ps), Mean(qs)) == ZERO
    && BestRotation(Centered(ps, qs).cross, t.cos, t.sin)
    && LeastSquares(ps, qs, t)
  }

  function Distance(num: Numerics, p: Vec, c: Vec): real {
    num.sqrt(NormSq(Sub(p, c)))
  }

  lemma DistanceFacts(num: Numerics, p: Vec, c: Vec)
    requires num.Valid()
    ensures Distance(num, p, c) >= 0.0
    ensures Distance(num, p, c) == 0.0 <==> p == c
  {
    hide NormSq;
    var x := NormSq(Sub(p, c));
    NormSqIsPositive(Sub(p, c));
    RootFacts(num.sqrt(x), x);
    assert Sub(p, c) == ZERO <==> p == c;
  }

  lemma RootFacts(r: real, x: real)
    requires r * r == x
    ensures r == 0.0 <==> x == 0.0
  {
    SquareIsPositive(r);
  }

  lemma {:induction false} DistanceSumFacts(num: Numerics, ps: seq<Vec>, c: Vec, n: nat)
    requires num.Valid() && n <= |ps|
    ensures DistanceSum(num, ps, c, n) >= 0.0
    ensures DistanceSum(num, ps, c, n) == 0.0 <==> forall i | 0 <= i < n :: ps[i] == c
  {
    if n > 0 {
      DistanceSumFacts(num, ps, c, n - 1);
      DistanceFacts(num, ps[n - 1], c);
    }
  }

  lemma {:induction false} SumOfEqual(ps: seq<Vec>, c: Vec, n: nat)
    requires n <= |ps| && forall i | 0 <= i < n :: ps[i] == c
    ensures Sum(ps, n) == Scale(n as real, c)
  {
    if n > 0 {
      SumOfEqual(ps, c, n - 1);
      OneMore((n - 1) as real, c);
      assert (n - 1) as real + 1.0 == n as real;
    }
  }

  lemma OneMore(k: real, c: Vec)
    ensures Add(Scale(k, c), c) == Scale(k + 1.0, c)
  {
  }

  /** The scale divides by zero exactly when all points of the first list coincide. */
  lemma ZeroSpread(num: Numerics, ps: seq<Vec>)
    requires num.Valid() && ps != []
    ensures DistanceSum(num, ps, Mean(ps), |ps|) == 0.0 <==> Coincide(ps)
  {
    DistanceSumFacts(num, ps, Mean(ps), |ps|);
    if Coincide(ps) {
      SumOfEqual(ps, ps[0], |ps|);
      MeanTimesCount(ps);
      var n := |ps| as real;
      assert n * Mean(ps).x == n * ps[0].x && n * Mean(ps).y == n * ps[0].y;
      Cancel(n, Mean(ps).x, ps[0].x);
      Cancel(n, Mean(ps).y, ps[0].y);
    }
  }

  lemma Cancel(k: real, x: real, y: real)
    requires k != 0.0 && k * x == k * y
    ensures x == y
  {
    assert x == k * x / k;
  }

  // ----- the estimation -----

  lemma Quotient(x: real, y: real)
    requires x >= 0.0 && y > 0.0
    ensures x / y >= 0.0 && x / y * y == x
  {
  }

  lemma CentresMatch(t: Similarity, pc: Vec, qc: Vec)
    requires t.translation == Sub(qc, Scale(t.scale, Turn(t.cos, t.sin, pc)))
    ensures Offset(t, pc, qc) == ZERO
  {
    hide Turn;
  }

  /** What the code computes from the rotation and the distance sums is a fit. */
  lemma ResultFits(num: Numerics, ps: seq<Vec>, qs: seq<Vec>, t: Similarity, rmfScale: real, robotScale: real)
    requires num.Valid() && |ps| == |qs| && ps != [] && !Coincide(ps)
    requires rmfScale == DistanceSum(num, ps, Mean(ps), |ps|) && robotScale == DistanceSum(num, qs, Mean(qs), |qs|)
    requires rmfScale != 0.0 && t.scale == robotScale / rmfScale
    requires ProperTurn(t) && BestRotation(Centered(ps, qs).cross, t.cos, t.sin)
    requires t.translation == Sub(Mean(qs), Scale(t.scale, Turn(t.cos, t.sin, Mean(ps))))
    ensures t.scale >= 0.0 && Fits(num, ps, qs, t)
  {
    hide Turn, Scale, Sub, Mean, ProperTurn;
    DistanceSumFacts(num, ps, Mean(ps), |ps|);
    DistanceSumFacts(num, qs, Mean(qs), |qs|);
    Quotient(robotScale, rmfScale);
    CentresMatch(t, Mean(ps), Mean(qs));
    BestRotationFits(ps, qs, t);
  }

  method EstimateTransformation(num: Numerics, rmf: seq<Vec>, robot: seq<Vec>) returns (e: Estimate)
    requires num.Valid()
    ensures e == InvalidArgument <==> |rmf| != |robot| || rmf == []
    ensures |rmf| == |robot| == 1 ==> e == Estimated(Similarity(1.0, 0.0, 1.0, Sub(robot[0], rmf[0])))
    ensures |rmf| == |robot| >= 2 ==> (e == NotFinite <==> Coincide(rmf))
    ensures |rmf| == |robot| >= 2 && !Coincide(rmf) ==> e.Estimated? && e.t.scale >= 0.0 && Fits(num, rmf, robot, e.t)
  {
    hide Coincide, Fits, BestRotation, IsSvd, Turn, Outer, NormSq;
    if |rmf| != |robot| || |rmf| == 0 {
      return InvalidArgument;
    }
    if |rmf| == 1 {
      return Estimated(Similarity(1.0, 0.0, 1.0, Sub(robot[0], rmf[0])));
    }
    var rmfCentroid, robotCentroid := Vec(0.0, 0.0), Vec(0.0, 0.0);
    for i := 0 to |rmf|
      invariant rmfCentroid == Sum(rmf, i) && robotCentroid == Sum(robot, i)
    {
      rmfCentroid := Add(rmfCentroid, rmf[i]);
      robotCentroid := Add(robotCentroid, robot[i]);
    }
    rmfCentroid := Scale(1.0 / |rmf| as real, rmfCentroid);
    robotCentroid := Scale(1.0 / |robot| as real, robotCentroid);
    assert rmfCentroid == Mean(rmf) && robotCentroid == Mean(robot);
    hide Scale, Sub, Mean;

    var h := Mat(0.0, 0.0, 0.0, 0.0);
    for i := 0 to |rmf|
      invariant h == MomentSum(rmf, robot, rmfCentroid, robotCentroid, i).cross
    {
      h := Plus(h, Outer(Sub(robot[i], robotCentroid), Sub(rmf[i], rmfCentroid)));
    }
    var r := ExtractRotation(h, num.svd(h));

    var rmfScale, robotScale := 0.0, 0.0;
    for i := 0 to |rmf|
      invariant rmfScale == DistanceSum(num, rmf, rmfCentroid, i)
      invariant robotScale == DistanceSum(num, robot, robotCentroid, i)
    {
      rmfScale := rmfScale + Distance(num, rmf[i], rmfCentroid);
      robotScale := robotScale + Distance(num, robot[i], robotCentroid);
    }
    ZeroSpread(num, rmf);
    if rmfScale == 0.0 {
      return NotFinite;
    }
    var scale := robotScale / rmfScale;
    var translation := Sub(robotCentroid, Scale(scale, Turn(r.a, r.c, rmfCentroid)));
    e := Estimated(Similarity(r.a, r.c, scale, translation));
    ResultFits(num, rmf, robot, e.t, rmfScale, robotScale);
  }

  // ----- exact recovery -----

  lemma MapStep(k: real, turned: Vec, x: Vec, n: real, tr: Vec)
    ensures Add(Add(Scale(k, turned), Scale(n, tr)), Add(Scale(k, x), tr)) == Add(Scale(k, Add(turned, x)), Scale(n + 1.0, tr))
  {
  }

  lemma {:induction false} SumOfMapped(ps: seq<Vec>, qs: seq<Vec>, t: Similarity, n: nat)
    requires n <= |ps| == |qs| && forall i | 0 <= i < |ps| :: qs[i] == Map(t, ps[i])
    ensures Sum(qs, n) == Add(Scale(t.scale, Turn(t.cos, t.sin, Sum(ps, n))), Scale(n as real, t.translation))
  {
    if n > 0 {
      hide Turn, Scale, Add;
      SumOfMapped(ps, qs, t, n - 1);
      var sum, p := Sum(ps, n - 1), ps[n - 1];
      TurnLinear(t.cos, t.sin, sum, p);
      MapStep(t.scale, Turn(t.cos, t.sin, sum), Turn(t.cos, t.sin, p), (n - 1) as real, t.translation);
      assert (n - 1) as real + 1.0 == n as real;
    }
  }

  lemma ScaleDivides(n: real, k: real, x: Vec, tr: Vec)
    requires n != 0.0
    ensures Scale(1.0 / n, Add(Scale(k, x), Scale(n, tr))) == Add(Scale(k, Scale(1.0 / n, x)), tr)
  {
    var r := 1.0 / n;
    assert r * n == 1.0;
    assert r * (k * x.x + n * tr.x) == k * (r * x.x) + r * n * tr.x;
    assert r * (k * x.y + n * tr.y) == k * (r * x.y) + r * n * tr.y;
  }

  lemma TurnScales(c: real, s: real, r: real, x: Vec)
    ensures Turn(c, s, Scale(r, x)) == Scale(r, Turn(c, s, x))
  {
  }

  lemma MeanOfMapped(ps: seq<Vec>, qs: seq<Vec>, t: Similarity)
    requires |ps| == |qs| && ps != [] && forall i | 0 <= i < |ps| :: qs[i] == Map(t, ps[i])
    ensures Mean(qs) == Map(t, Mean(ps))
  {
    hide Turn, Scale, Add;
    var n, sum := |ps| as real, Sum(ps, |ps|);
    SumOfMapped(ps, qs, t, |ps|);
    ScaleDivides(n, t.scale, Turn(t.cos, t.sin, sum), t.translation);
    TurnScales(t.cos, t.sin, 1.0 / n, sum);
  }

  lemma SameSquare(x: real, y: real)
    requires x >= 0.0 && y >= 0.0 && x * x == y * y
    ensures x == y
  {
    assert (x - y) * (x + y) == 0.0;
    ZeroProduct(x - y, x + y);
  }

  lemma MappedDistance(num: Numerics, t: Similarity, p: Vec, c: Vec)
    requires num.Valid() && ProperTurn(t) && t.scale >= 0.0
    ensures Distance(num, Map(t, p), Map(t, c)) == t.scale * Distance(num, p, c)
  {
    hide NormSq, Turn, Scale;
    var k, d := t.scale, Sub(p, c);
    TurnLinear(t.cos, t.sin, p, c);
    ScaleLinear(k, Turn(t.cos, t.sin, p), Turn(t.cos, t.sin, c));
    assert Sub(Map(t, p), Map(t, c)) == Scale(k, Turn(t.cos, t.sin, d));
    ScaleSquares(k, Turn(t.cos, t.sin, d), ZERO);
    TurnKeepsLength(t.cos, t.sin, d);
    NormSqIsPositive(d);
    NormSqIsPositive(Sub(Map(t, p), Map(t, c)));
    ScaledRoot(num, k, NormSq(d), NormSq(Sub(Map(t, p), Map(t, c))));
  }

  lemma ScaledRoot(num: Numerics, k: real, x: real, y: real)
    requires num.Valid() && k >= 0.0 && x >= 0.0 && y >= 0.0 && y == k * k * x
    ensures num.sqrt(y) == k * num.sqrt(x)
  {
    var r := num.sqrt(x);
    assert k * r * (k * r) == k * k * (r * r);
    SameSquare(num.sqrt(y), k * r);
  }

  lemma {:induction false} MappedDistances(num: Numerics, ps: seq<Vec>, qs: seq<Vec>, t: Similarity, c: Vec, n: nat)
    requires num.Valid() && ProperTurn(t) && t.scale >= 0.0
    requires n <= |ps| == |qs| && forall i | 0 <= i < |ps| :: qs[i] == Map(t, ps[i])
    ensures DistanceSum(num, qs, Map(t, c), n) == t.scale * DistanceSum(num, ps, c, n)
  {
    hide Map, Distance, ProperTurn;
    if n > 0 {
      MappedDistances(num, ps, qs, t, c, n - 1);
      MappedDistance(num, t, ps[n - 1], c);
      assert DistanceSum(num, qs, Map(t, c), n) == DistanceSum(num, qs, Map(t, c), n - 1) + Distance(num, Map(t, ps[n - 1]), Map(t, c));
      Distribute(t.scale, DistanceSum(num, ps, c, n - 1), Distance(num, ps[n - 1], c));
    }
  }

  lemma ApartIsPositive(p: Vec, q: Vec)
    ensures NormSq(Sub(p, q)) >= 0.0
    ensures NormSq(Sub(p, q)) == 0.0 <==> p == q
  {
    NormSqIsPositive(Sub(p, q));
    hide NormSq;
    assert Sub(p, q) == ZERO <==> p == q;
  }

  /** A cost is never negative, and zero only when every point is put where it should be. */
  lemma {:induction false} ZeroCost(ps: seq<Vec>, qs: seq<Vec>, t: Similarity, n: nat)
    requires n <= |ps| == |qs|
    ensures Cost(ps, qs, t, n) >= 0.0
    ensures Cost(ps, qs, t, n) == 0.0 <==> forall i | 0 <= i < n :: Map(t, ps[i]) == qs[i]
  {
    hide Map, NormSq, Sub;
    if n > 0 {
      ZeroCost(ps, qs, t, n - 1);
      var last := NormSq(Sub(Map(t, ps[n - 1]), qs[n - 1]));
      ApartIsPositive(Map(t, ps[n - 1]), qs[n - 1]);
      assert Cost(ps, qs, t, n) == Cost(ps, qs, t, n - 1) + last;
      hide Cost;
    }
  }

  lemma SameTurn(c: real, s: real, c': real, s': real, d: Vec)
    requires Turn(c, s, d) == Turn(c', s', d) && d != ZERO
    ensures c == c' && s == s'
  {
    var x, y := c - c', s - s';
    assert x * d.x - y * d.y == 0.0 && y * d.x + x * d.y == 0.0;
    var n := d.x * d.x + d.y * d.y;
    assert x * n == d.x * (x * d.x - y * d.y) + d.y * (y * d.x + x * d.y);
    assert y * n == d.x * (y * d.x + x * d.y) - d.y * (x * d.x - y * d.y);
    NormSqIsPositive(d);
    ZeroProduct(x, n);
    ZeroProduct(y, n);
  }

  /** Two similarities of the same nonzero scale that agree on two distinct points are the same. */
  lemma TwoPointsDecide(t: Similarity, other: Similarity, p: Vec, q: Vec)
    requires t.scale == other.scale != 0.0 && p != q
    requires Map(t, p) == Map(other, p) && Map(t, q) == Map(other, q)
    ensures t == other
  {
    hide Turn;
    var k, d := t.scale, Sub(p, q);
    TurnLinear(t.cos, t.sin, p, q);
    TurnLinear(other.cos, other.sin, p, q);
    ScaleLinear(k, Turn(t.cos, t.sin, p), Turn(t.cos, t.sin, q));
    ScaleLinear(k, Turn(other.cos, other.sin, p), Turn(other.cos, other.sin, q));
    assert Scale(k, Turn(t.cos, t.sin, d)) == Sub(Map(t, p), Map(t, q)) == Scale(k, Turn(other.cos, other.sin, d));
    Cancel(k, Turn(t.cos, t.sin, d).x, Turn(other.cos, other.sin, d).x);
    Cancel(k, Turn(t.cos, t.sin, d).y, Turn(other.cos, other.sin, d).y);
    SameTurn(t.cos, t.sin, other.cos, other.sin, d);
  }

  lemma ScaleRecovered(num: Numerics, ps: seq<Vec>, qs: seq<Vec>, k: real, truth: Similarity)
    requires num.Valid() && |ps| == |qs| && ps != [] && !Coincide(ps)
    requires ProperTurn(truth) && truth.scale > 0.0 && forall i | 0 <= i < |ps| :: qs[i] == Map(truth, ps[i])
    requires k * DistanceSum(num, ps, Mean(ps), |ps|) == DistanceSum(num, qs, Mean(qs), |qs|)
    ensures k == truth.scale
  {
    hide Map, Mean, ProperTurn;
    var spread := DistanceSum(num, ps, Mean(ps), |ps|);
    MeanOfMapped(ps, qs, truth);
    MappedDistances(num, ps, qs, truth, Mean(ps), |ps|);
    ZeroSpread(num, ps);
    hide DistanceSum, Coincide;
    assert spread * k == spread * truth.scale;
    Cancel(spread, k, truth.scale);
  }

  /**
   * Exact recovery: when every robot point is the image of its reference point under one
   * similarity, and the points do not all coincide, the fit is that similarity. This
   * includes collinear points and a single pair of points, where the cross sum has rank one.
   */
  lemma ExactRecovery(num: Numerics, ps: seq<Vec>, qs: seq<Vec>, t: Similarity, truth: Similarity)
    requires num.Valid() && |ps| == |qs| && ps != [] && !Coincide(ps)
    requires ProperTurn(truth) && truth.scale > 0.0 && forall i | 0 <= i < |ps| :: qs[i] == Map(truth, ps[i])
    requires Fits(num, ps, qs, t)
    ensures t == truth
  {
    hide Map, Mean, ProperTurn;
    ScaleRecovered(num, ps, qs, t.scale, truth);
    ZeroCost(ps, qs, truth, |ps|);
    ZeroCost(ps, qs, t, |ps|);
    hide DistanceSum;
    assert Cost(ps, qs, t, |ps|) <= Cost(ps, qs, truth, |ps|);
    var i, j :| 0 <= i < |ps| && 0 <= j < |ps| && ps[i] != ps[j];
    TwoPointsDecide(t, truth, ps[i], ps[j]);
  }

  // ----- the scale -----

  lemma CompleteSquare(k: real, j: real, pp: real, m: real)
    ensures j * j * pp - 2.0 * j * m - (k * k * pp - 2.0 * k * m) == (j - k) * (j - k) * pp + 2.0 * (j - k) * (k * pp - m)
  {
  }

  lemma {:induction false} SpreadIsPositive(ps: seq<Vec>, qs: seq<Vec>, pc: Vec, qc: Vec, n: nat)
    requires n <= |ps| == |qs|
    ensures MomentSum(ps, qs, pc, qc, n).pp >= 0.0
    ensures MomentSum(ps, qs, pc, qc, n).pp == 0.0 ==> forall i | 0 <= i < n :: ps[i] == pc
  {
    hide NormSq, Sub, Outer;
    if n > 0 {
      SpreadIsPositive(ps, qs, pc, qc, n - 1);
      ApartIsPositive(ps[n - 1], pc);
    }
  }

  lemma SpreadAboutMeans(ps: seq<Vec>, qs: seq<Vec>)
    requires |ps| == |qs| && ps != []
    ensures Centered(ps, qs).pp >= 0.0
    ensures !Coincide(ps) ==> Centered(ps, qs).pp > 0.0
  {
    SpreadIsPositive(ps, qs, Mean(ps), Mean(qs), |ps|);
  }

  /** t at another scale and translation. */
  function Rescaled(t: Similarity, k: real, translation: Vec): Similarity {
    t.(scale := k, translation := translation)
  }

  /** No similarity at all fits better: what the documentation says of the result. */
  ghost predicate LeastOfAll(ps: seq<Vec>, qs: seq<Vec>, t: Similarity)
    requires |ps| == |qs|
  {
    forall other: Similarity | ProperTurn(other) :: Cost(ps, qs, t, |ps|) <= Cost(ps, qs, other, |ps|)
  }

  lemma BetterScale(k: real, j: real, pp: real, corr: real)
    requires pp > 0.0 && j == corr / pp && k * pp != corr
    ensures (j - k) * (j - k) * pp + 2.0 * (j - k) * (k * pp - corr) < 0.0
  {
    assert j * pp == corr;
    assert k * pp - corr == -(j - k) * pp;
    assert (j - k) * (j - k) * pp + 2.0 * (j - k) * (-(j - k) * pp) == -((j - k) * (j - k) * pp);
    SquareIsPositive(j - k);
  }

  lemma RescaledMoments(t: Similarity, k: real, tr: Vec, m: Moments, e: Vec)
    ensures CenteredCost(Rescaled(t, k, tr), m, e) - CenteredCost(t, m, ZERO) ==
      ScaleGain(t, k, m) + m.n * NormSq(e)
  {
    hide Correlation, NormSq;
    var corr := Correlation(m.cross, t.cos, t.sin);
    NormSqIsPositive(ZERO);
    assert CenteredCost(t, m, ZERO) == t.scale * t.scale * m.pp + m.qq - 2.0 * t.scale * corr + m.n * 0.0;
    assert CenteredCost(Rescaled(t, k, tr), m, e) == k * k * m.pp + m.qq - 2.0 * k * corr + m.n * NormSq(e);
    hide CenteredCost;
    CompleteSquare(t.scale, k, m.pp, corr);
  }

  /** How much the cost grows when the scale becomes k and the centres stay matched. */
  function ScaleGain(t: Similarity, k: real, m: Moments): real {
    var d := k - t.scale;
    d * d * m.pp + 2.0 * d * (t.scale * m.pp - Correlation(m.cross, t.cos, t.sin))
  }

  lemma RescaledCost(ps: seq<Vec>, qs: seq<Vec>, t: Similarity, k: real, tr: Vec)
    requires |ps| == |qs| && ps != [] && ProperTurn(t) && Offset(t, Mean(ps), Mean(qs)) == ZERO
    ensures Cost(ps, qs, Rescaled(t, k, tr), |ps|) - Cost(ps, qs, t, |ps|) ==
      ScaleGain(t, k, Centered(ps, qs)) + Centered(ps, qs).n * NormSq(Offset(Rescaled(t, k, tr), Mean(ps), Mean(qs)))
  {
    hide CenteredCost, Centered, Correlation, NormSq, Mean, Offset, ScaleGain, Cost;
    CostAboutMeans(ps, qs, t);
    CostAboutMeans(ps, qs, Rescaled(t, k, tr));
    RescaledMoments(t, k, tr, Centered(ps, qs), Offset(Rescaled(t, k, tr), Mean(ps), Mean(qs)));
  }

  /** The parabola of the scale, whichever way the rotation is turned. */
  lemma LowestPoint(k: real, pp: real, best: real, j: real, corr: real)
    requires pp >= 0.0 && k >= 0.0 && k * pp == best && -best <= corr <= best
    ensures k * k * pp - 2.0 * k * best <= j * j * pp - 2.0 * j * corr
  {
    var size := if j >= 0.0 then j else -j;
    assert j * corr <= size * best by {
      if j >= 0.0 {
        Ordered(j, corr, best);
      } else {
        Ordered(-j, -corr, best);
      }
    }
    CompleteSquare(k, size, pp, best);
    SquareIsPositive(size - k);
    Ordered(pp, 0.0, (size - k) * (size - k));
    assert 2.0 * (size - k) * (k * pp - best) == 0.0;
  }

  lemma BalancedCost(t: Similarity, other: Similarity, m: Moments, e: Vec, best: real)
    requires t.scale >= 0.0 && m.pp >= 0.0 && m.n >= 0.0 && t.scale * m.pp == best
    requires Correlation(m.cross, t.cos, t.sin) == best && -best <= Correlation(m.cross, other.cos, other.sin) <= best
    ensures CenteredCost(t, m, ZERO) <= CenteredCost(other, m, e)
  {
    hide Correlation, NormSq;
    NormSqIsPositive(e);
    NormSqIsPositive(ZERO);
    Ordered(m.n, 0.0, NormSq(e));
    LowestPoint(t.scale, m.pp, best, other.scale, Correlation(m.cross, other.cos, other.sin));
    assert m.n * NormSq(ZERO) == 0.0;
  }

  /** At the balanced scale nothing at all fits better. */
  lemma BalancedIsBest(num: Numerics, ps: seq<Vec>, qs: seq<Vec>, t: Similarity, other: Similarity)
    requires num.Valid() && |ps| == |qs| && ps != [] && t.scale >= 0.0 && Fits(num, ps, qs, t) && ProperTurn(other)
    requires t.scale * Centered(ps, qs).pp == BestCorrelationOf(num, ps, qs)
    ensures Cost(ps, qs, t, |ps|) <= Cost(ps, qs, other, |ps|)
  {
    hide Correlation, Mean, Cost, Centered, CenteredCost, Offset, TurnSq, LeastSquares, DistanceSum, BestRotation;
    var m, e := Centered(ps, qs), Offset(other, Mean(ps), Mean(qs));
    var best := BestCorrelationOf(num, ps, qs);
    CorrelationAtBest(num, ps, qs, t);
    RootOfTurn(num, m.cross);
    CorrelationIsBounded(m.cross, other.cos, other.sin, best);
    CostAboutMeans(ps, qs, t);
    CostAboutMeans(ps, qs, other);
    CenteredIsZero(ps, qs);
    SpreadAboutMeans(ps, qs);
    BalancedCost(t, other, m, e, best);
  }

  // ----- in terms of the points -----

  /** How well the points correlate at the best rotation. */
  ghost function BestCorrelationOf(num: Numerics, ps: seq<Vec>, qs: seq<Vec>): real
    requires |ps| == |qs| && ps != []
  {
    num.sqrt(TurnSq(Centered(ps, qs).cross))
  }

  /** The sums of distances, the spread and the best correlation of the points are in proportion. */
  ghost predicate InProportion(num: Numerics, ps: seq<Vec>, qs: seq<Vec>)
    requires |ps| == |qs| && ps != []
  {
    DistanceSum(num, qs, Mean(qs), |qs|) * Centered(ps, qs).pp ==
    DistanceSum(num, ps, Mean(ps), |ps|) * BestCorrelationOf(num, ps, qs)
  }

  lemma RootOfTurn(num: Numerics, h: Mat)
    requires num.Valid()
    ensures num.sqrt(TurnSq(h)) >= 0.0 && num.sqrt(TurnSq(h)) * num.sqrt(TurnSq(h)) == TurnSq(h)
  {
    SquareIsPositive(h.a + h.d);
    SquareIsPositive(h.c - h.b);
  }

  lemma CorrelationAtBest(num: Numerics, ps: seq<Vec>, qs: seq<Vec>, t: Similarity)
    requires num.Valid() && |ps| == |qs| && ps != [] && Fits(num, ps, qs, t)
    ensures Correlation(Centered(ps, qs).cross, t.cos, t.sin) == BestCorrelationOf(num, ps, qs)
  {
    hide Centered, Mean, LeastSquares, DistanceSum, Correlation, TurnSq, BestRotation, Offset;
    var h := Centered(ps, qs).cross;
    RootOfTurn(num, h);
    BestCorrelation(h, t.cos, t.sin, num.sqrt(TurnSq(h)));
  }

  /** Whether the points are in proportion says whether the scale is balanced. */
  lemma ProportionBalances(num: Numerics, ps: seq<Vec>, qs: seq<Vec>, t: Similarity)
    requires num.Valid() && |ps| == |qs| && ps != [] && !Coincide(ps) && Fits(num, ps, qs, t)
    ensures InProportion(num, ps, qs) <==> t.scale * Centered(ps, qs).pp == BestCorrelationOf(num, ps, qs)
  {
    hide Centered, Mean, LeastSquares, BestRotation, Offset, Coincide, BestCorrelationOf;
    ZeroSpread(num, ps);
    hide DistanceSum;
    var (d, pp, best) := (DistanceSum(num, ps, Mean(ps), |ps|), Centered(ps, qs).pp, BestCorrelationOf(num, ps, qs));
    Proportion(d, t.scale, DistanceSum(num, qs, Mean(qs), |qs|), pp, best);
  }

  lemma Proportion(d: real, k: real, e: real, pp: real, best: real)
    requires d != 0.0 && k * d == e
    ensures e * pp == d * best <==> k * pp == best
  {
    assert e * pp == d * (k * pp);
    if e * pp == d * best {
      Cancel(d, k * pp, best);
    }
  }

  /** At any other scale, the balanced one fits better. */
  lemma UnbalancedIsNotBest(ps: seq<Vec>, qs: seq<Vec>, t: Similarity)
    requires |ps| == |qs| && ps != [] && !Coincide(ps) && ProperTurn(t) && Offset(t, Mean(ps), Mean(qs)) == ZERO
    requires t.scale * Centered(ps, qs).pp != Correlation(Centered(ps, qs).cross, t.cos, t.sin)
    ensures exists k, tr :: Cost(ps, qs, Rescaled(t, k, tr), |ps|) < Cost(ps, qs, t, |ps|)
  {
    hide Correlation, NormSq, Mean, Cost, Turn, Centered, Offset;
    var m := Centered(ps, qs);
    var corr := Correlation(m.cross, t.cos, t.sin);
    SpreadAboutMeans(ps, qs);
    var k := corr / m.pp;
    var tr := Sub(Mean(qs), Scale(k, Turn(t.cos, t.sin, Mean(ps))));
    RescaledCost(ps, qs, t, k, tr);
    CentresMatch(Rescaled(t, k, tr), Mean(ps), Mean(qs));
    NormSqIsPositive(ZERO);
    BetterScale(t.scale, k, m.pp, corr);
    assert ScaleGain(t, k, m) < 0.0 && m.n * NormSq(ZERO) == 0.0;
    hide ScaleGain;
    assert Cost(ps, qs, Rescaled(t, k, tr), |ps|) < Cost(ps, qs, t, |ps|);
  }

  /**
   * The documentation calls the estimate a least-squares one. It is, over all similarities,
   * if and only if the sums of distances of the points are in proportion to their spread
   * and their correlation, which can be seen from the points alone.
   */
  lemma EstimateIsLeastIff(num: Numerics, ps: seq<Vec>, qs: seq<Vec>, t: Similarity)
    requires num.Valid() && |ps| == |qs| && ps != [] && !Coincide(ps) && t.scale >= 0.0 && Fits(num, ps, qs, t)
    ensures LeastOfAll(ps, qs, t) <==> InProportion(num, ps, qs)
  {
    hide Correlation, Mean, LeastSquares, Cost, Centered, Offset, DistanceSum, Coincide, BestRotation,
      BestCorrelationOf, InProportion;
    ProportionBalances(num, ps, qs, t);
    CorrelationAtBest(num, ps, qs, t);
    if InProportion(num, ps, qs) {
      forall other: Similarity | ProperTurn(other) ensures Cost(ps, qs, t, |ps|) <= Cost(ps, qs, other, |ps|) {
        BalancedIsBest(num, ps, qs, t, other);
      }
    } else {
      UnbalancedIsNotBest(ps, qs, t);
      var k, tr :| Cost(ps, qs, Rescaled(t, k, tr), |ps|) < Cost(ps, qs, t, |ps|);
      assert ProperTurn(Rescaled(t, k, tr));
    }
  }

  // ----- points for which it is not -----

  const REFERENCE: seq<Vec> := [Vec(0.0, 0.0), Vec(1.0, 0.0), Vec(2.0, 0.0)]
  const MEASURED: seq<Vec> := [Vec(0.0, 0.0), Vec(0.0, 0.0), Vec(3.0, 0.0)]
  const BETTER: Similarity := Similarity(1.0, 0.0, 1.5, Vec(-0.5, 0.0))

  lemma RootsOfSquares(num: Numerics)
    requires num.Valid()
    ensures num.sqrt(0.0) == 0.0 && num.sqrt(1.0) == 1.0 && num.sqrt(4.0) == 2.0 && num.sqrt(9.0) == 3.0
  {
    Root(num, 0.0);
    Root(num, 1.0);
    Root(num, 2.0);
    Root(num, 3.0);
  }

  lemma Root(num: Numerics, x: real)
    requires num.Valid() && x >= 0.0
    ensures num.sqrt(x * x) == x
  {
    SquareIsPositive(x);
    SameSquare(num.sqrt(x * x), x);
  }

  lemma MeansOfWitness()
    ensures Mean(REFERENCE) == Vec(1.0, 0.0) && Mean(MEASURED) == Vec(1.0, 0.0)
  {
    assert Sum(REFERENCE, 1) == Vec(0.0, 0.0) && Sum(MEASURED, 1) == Vec(0.0, 0.0);
    assert Sum(REFERENCE, 2) == Vec(1.0, 0.0) && Sum(MEASURED, 2) == Vec(0.0, 0.0);
    assert Sum(REFERENCE, 3) == Vec(3.0, 0.0) && Sum(MEASURED, 3) == Vec(3.0, 0.0);
  }

  lemma DistanceOnAxis(num: Numerics, x: real, c: real)
    ensures Distance(num, Vec(x, 0.0), Vec(c, 0.0)) == num.sqrt((x - c) * (x - c))
  {
    assert Sub(Vec(x, 0.0), Vec(c, 0.0)) == Vec(x - c, 0.0);
    assert NormSq(Vec(x - c, 0.0)) == (x - c) * (x - c);
  }

  lemma DistancesOfWitness(num: Numerics)
    requires num.sqrt(0.0) == 0.0 && num.sqrt(1.0) == 1.0 && num.sqrt(4.0) == 2.0
    ensures DistanceSum(num, REFERENCE, Vec(1.0, 0.0), 3) == 2.0
    ensures DistanceSum(num, MEASURED, Vec(1.0, 0.0), 3) == 4.0
  {
    hide Distance;
    var c := Vec(1.0, 0.0);
    DistanceOnAxis(num, 0.0, 1.0);
    DistanceOnAxis(num, 1.0, 1.0);
    DistanceOnAxis(num, 2.0, 1.0);
    DistanceOnAxis(num, 3.0, 1.0);
    assert DistanceSum(num, REFERENCE, c, 1) == 1.0;
    assert DistanceSum(num, REFERENCE, c, 2) == 1.0;
    assert DistanceSum(num, MEASURED, c, 1) == 1.0;
    assert DistanceSum(num, MEASURED, c, 2) == 2.0;
  }

  lemma MomentOnAxis(p: Vec, q: Vec, c: Vec, x: real, y: real, xx: real, yy: real, xy: real)
    requires p == Vec(x + 1.0, 0.0) && q == Vec(y + 1.0, 0.0) && c == Vec(1.0, 0.0)
    requires xx == x * x && yy == y * y && xy == y * x
    ensures MomentsOf(Sub(p, c), Sub(q, c)) == Moments(1.0, Vec(x, 0.0), Vec(y, 0.0), xx, yy, Mat(xy, 0.0, 0.0, 0.0))
  {
  }

  lemma FirstOfWitness(c: Vec)
    requires c == Vec(1.0, 0.0)
    ensures MomentsOf(Sub(REFERENCE[0], c), Sub(MEASURED[0], c)) ==
            Moments(1.0, Vec(-1.0, 0.0), Vec(-1.0, 0.0), 1.0, 1.0, Mat(1.0, 0.0, 0.0, 0.0))
  {
    hide MomentsOf, Sub;
    MomentOnAxis(REFERENCE[0], MEASURED[0], c, -1.0, -1.0, 1.0, 1.0, 1.0);
  }

  lemma SecondOfWitness(c: Vec)
    requires c == Vec(1.0, 0.0)
    ensures MomentsOf(Sub(REFERENCE[1], c), Sub(MEASURED[1], c)) ==
            Moments(1.0, Vec(0.0, 0.0), Vec(-1.0, 0.0), 0.0, 1.0, Mat(0.0, 0.0, 0.0, 0.0))
  {
    hide MomentsOf, Sub;
    MomentOnAxis(REFERENCE[1], MEASURED[1], c, 0.0, -1.0, 0.0, 1.0, 0.0);
  }

  lemma ThirdOfWitness(c: Vec)
    requires c == Vec(1.0, 0.0)
    ensures MomentsOf(Sub(REFERENCE[2], c), Sub(MEASURED[2], c)) ==
            Moments(1.0, Vec(1.0, 0.0), Vec(2.0, 0.0), 1.0, 4.0, Mat(2.0, 0.0, 0.0, 0.0))
  {
    hide MomentsOf, Sub;
    MomentOnAxis(REFERENCE[2], MEASURED[2], c, 1.0, 2.0, 1.0, 4.0, 2.0);
  }

  lemma MomentSumStep(ps: seq<Vec>, qs: seq<Vec>, c: Vec, n: nat, m: Moments, one: Moments, sum: Moments)
    requires n < |ps| == |qs|
    requires MomentSum(ps, qs, c, c, n) == m && MomentsOf(Sub(ps[n], c), Sub(qs[n], c)) == one
    requires Combine(m, one) == sum
    ensures MomentSum(ps, qs, c, c, n + 1) == sum
  {
    hide Combine, MomentsOf, Sub;
  }

  lemma EmptyMoments(ps: seq<Vec>, qs: seq<Vec>, c: Vec)
    requires |ps| == |qs|
    ensures MomentSum(ps, qs, c, c, 0) == Moments(0.0, ZERO, ZERO, 0.0, 0.0, Mat(0.0, 0.0, 0.0, 0.0))
  {
  }

  lemma SumsOfWitness(c: Vec)
    requires c == Vec(1.0, 0.0)
    ensures MomentSum(REFERENCE, MEASURED, c, c, 3) == Moments(3.0, ZERO, ZERO, 2.0, 6.0, Mat(3.0, 0.0, 0.0, 0.0))
  {
    hide MomentsOf, Sub, MomentSum;
    FirstOfWitness(c);
    SecondOfWitness(c);
    ThirdOfWitness(c);
    EmptyMoments(REFERENCE, MEASURED, c);
    var none := Moments(0.0, ZERO, ZERO, 0.0, 0.0, Mat(0.0, 0.0, 0.0, 0.0));
    var one := Moments(1.0, Vec(-1.0, 0.0), Vec(-1.0, 0.0), 1.0, 1.0, Mat(1.0, 0.0, 0.0, 0.0));
    var two := Moments(2.0, Vec(-1.0, 0.0), Vec(-2.0, 0.0), 1.0, 2.0, Mat(1.0, 0.0, 0.0, 0.0));
    MomentSumStep(REFERENCE, MEASURED, c, 0, none, MomentsOf(Sub(REFERENCE[0], c), Sub(MEASURED[0], c)), one);
    MomentSumStep(REFERENCE, MEASURED, c, 1, one, MomentsOf(Sub(REFERENCE[1], c), Sub(MEASURED[1], c)), two);
    MomentSumStep(REFERENCE, MEASURED, c, 2, two, MomentsOf(Sub(REFERENCE[2], c), Sub(MEASURED[2], c)),
                  Moments(3.0, ZERO, ZERO, 2.0, 6.0, Mat(3.0, 0.0, 0.0, 0.0)));
  }

  lemma MomentsOfWitness()
    ensures Centered(REFERENCE, MEASURED) == Moments(3.0, ZERO, ZERO, 2.0, 6.0, Mat(3.0, 0.0, 0.0, 0.0))
  {
    MeansOfWitness();
    hide Mean, MomentSum;
    SumsOfWitness(Vec(1.0, 0.0));
  }

  lemma UnturnedOffset(t: Similarity, c: Vec)
    requires t.cos == 1.0 && t.sin == 0.0 && c.y == 0.0 && t.translation.y == 0.0
    requires t.scale * c.x + t.translation.x == c.x
    ensures Offset(t, c, c) == ZERO && ProperTurn(t)
  {
  }

  lemma UnturnedCorrelation(h: Mat, cos: real, sin: real)
    requires cos == 1.0 && sin == 0.0
    ensures Correlation(h, cos, sin) == h.a + h.d
  {
  }

  lemma BetterMatches()
    ensures Offset(BETTER, Vec(1.0, 0.0), Vec(1.0, 0.0)) == ZERO && ProperTurn(BETTER)
    ensures Correlation(Mat(3.0, 0.0, 0.0, 0.0), BETTER.cos, BETTER.sin) == 3.0
  {
    hide Offset, ProperTurn, Correlation;
    UnturnedOffset(BETTER, Vec(1.0, 0.0));
    UnturnedCorrelation(Mat(3.0, 0.0, 0.0, 0.0), BETTER.cos, BETTER.sin);
  }

  lemma BetterCost()
    ensures ProperTurn(BETTER) && Cost(REFERENCE, MEASURED, BETTER, 3) == 1.5
  {
    hide Cost, Centered, Mean, NormSq, Offset, ProperTurn, Correlation;
    MeansOfWitness();
    MomentsOfWitness();
    BetterMatches();
    CostAboutMeans(REFERENCE, MEASURED, BETTER);
    NormSqIsPositive(ZERO);
  }

  lemma ScaleOfWitness(num: Numerics, t: Similarity)
    requires num.Valid() && Fits(num, REFERENCE, MEASURED, t)
    ensures t.scale == 2.0
  {
    hide LeastSquares, BestRotation, Centered, Offset;
    MeansOfWitness();
    RootsOfSquares(num);
    DistancesOfWitness(num);
    hide Mean, DistanceSum;
    assert t.scale * 2.0 == 4.0;
  }

  lemma CorrelationOfWitness(num: Numerics, t: Similarity)
    requires num.Valid() && Fits(num, REFERENCE, MEASURED, t)
    ensures Correlation(Mat(3.0, 0.0, 0.0, 0.0), t.cos, t.sin) == 3.0
  {
    hide Fits, Centered, Correlation;
    CorrelationAtBest(num, REFERENCE, MEASURED, t);
    MomentsOfWitness();
    RootsOfSquares(num);
    assert TurnSq(Mat(3.0, 0.0, 0.0, 0.0)) == 9.0;
  }

  lemma CostOfWitness(t: Similarity)
    requires ProperTurn(t) && t.scale == 2.0 && Correlation(Mat(3.0, 0.0, 0.0, 0.0), t.cos, t.sin) == 3.0
    requires Offset(t, Mean(REFERENCE), Mean(MEASURED)) == ZERO
    ensures Cost(REFERENCE, MEASURED, t, 3) == 2.0
  {
    hide Cost, Centered, Mean, Correlation, NormSq, ProperTurn, Offset;
    CostAboutMeans(REFERENCE, MEASURED, t);
    MomentsOfWitness();
    NormSqIsPositive(ZERO);
  }

  /**
   * For these three points the estimate has scale 2 and squared error 2, and another
   * similarity, of scale 1.5, has 1.5: the estimate is not a least-squares one.
   */
  lemma EstimateNeedNotBeLeast(num: Numerics, t: Similarity)
    requires num.Valid() && Fits(num, REFERENCE, MEASURED, t)
    ensures t.scale == 2.0 && Cost(REFERENCE, MEASURED, t, 3) == 2.0
    ensures ProperTurn(BETTER) && Cost(REFERENCE, MEASURED, BETTER, 3) == 1.5
    ensures !LeastOfAll(REFERENCE, MEASURED, t)
  {
    hide LeastSquares, BestRotation, Cost, DistanceSum, Centered, Mean, Correlation, Offset, ProperTurn;
    ScaleOfWitness(num, t);
    CorrelationOfWitness(num, t);
    CostOfWitness(t);
    BetterCost();
  }
}
