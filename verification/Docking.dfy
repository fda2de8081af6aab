/** Which lane out of a dock is most nearly opposite to the lane into it, and what a dock request does. */
module Docking {
  import opened Common
  import opened Plane
  import opened TrafficGraph

  /** The double nearest to pi, as the code uses it. */
  const PI: real := 3.141592653589793115997963468544185161590576171875

  /**
   * The angle of a direction, which the code takes by an arc tangent of the normalised
   * direction, and the cosine and root that say what an angle is. A direction without
   * length has the angle zero, like that of the x axis.
   */
  datatype Trig = Trig(angle: Vec -> real, cos: real -> real, sqrt: real -> real) {
    ghost predicate Valid() {
      && IsCosine(cos) && IsRoot(sqrt)
      && (forall d, e | d != ZERO && e != ZERO :: Length(d) * Length(e) * cos(angle(d) - angle(e)) == Dot(d, e))
      && angle(ZERO) == angle(X_AXIS)
    }

    function Length(d: Vec): real { sqrt(NormSq(d)) }

    /** The direction with length one. */
    function Unit(d: Vec): Vec {
      if Length(d) == 0.0 then X_AXIS else Scale(1.0 / Length(d), d)
    }
  }

  /** Even, periodic, and decreasing over half a turn. */
  ghost predicate IsCosine(cos: real -> real) {
    && (forall x :: cos(-x) == cos(x))
    && (forall x :: cos(x + 2.0 * PI) == cos(x))
    && (forall x, y | 0.0 <= x < y <= PI :: cos(x) > cos(y))
  }

  ghost predicate IsRoot(sqrt: real -> real) {
    forall x | x >= 0.0 :: sqrt(x) >= 0.0 && sqrt(x) * sqrt(x) == x
  }

  const ZERO: Vec := Vec(0.0, 0.0)
  const X_AXIS: Vec := Vec(1.0, 0.0)

  function Abs(x: real): real { if x < 0.0 then -x else x }

  /** The k-th odd multiple of pi. */
  ghost function OddPi(k: int): real { (2 * k + 1) as real * PI }

  /** s is how far x is from the nearest odd multiple of pi: zero when two headings are opposite. */
  ghost predicate IsFromOpposite(x: real, s: real) {
    && (exists k :: s == Abs(x - OddPi(k)))
    && forall k :: s <= Abs(x - OddPi(k))
  }

  lemma FarFromOdd(r: real, k: int)
    requires -PI <= r <= PI
    ensures PI - Abs(r) <= Abs(r - OddPi(k))
  {
    if k >= 0 {
      assert OddPi(k) >= PI;
    } else {
      assert OddPi(k) <= -PI;
    }
  }

  lemma Shift(m: int, k: int)
    ensures OddPi(k) - 2.0 * PI * m as real == OddPi(k - m)
  {
  }

  /** A wrapped angle shows how far the original was from opposite. */
  lemma WrappedScore(x: real, r: real, m: int)
    requires -PI <= r <= PI && x == r + 2.0 * PI * m as real
    ensures IsFromOpposite(x, Abs(Abs(r) - PI))
  {
    var s := Abs(Abs(r) - PI);
    var k := if r >= 0.0 then m else m - 1;
    Shift(m, k);
    assert s == Abs(x - OddPi(k));
    forall k ensures s <= Abs(x - OddPi(k)) {
      Shift(m, k);
      FarFromOdd(r, k - m);
    }
  }

  /** The two wrap loops: they terminate in the interval from minus pi to pi, having moved by whole turns. */
  method Wrap(x: real) returns (r: real, ghost turns: int)
    ensures -PI <= r <= PI
    ensures x == r + 2.0 * PI * turns as real
  {
    r, turns := x, 0;
    while r > PI
      invariant x == r + 2.0 * PI * turns as real
      invariant r == x || r > -PI
      decreases r
    {
      r, turns := r - 2.0 * PI, turns + 1;
    }
    while r < -PI
      invariant x == r + 2.0 * PI * turns as real
      invariant r <= PI
      decreases -r
    {
      r, turns := r + 2.0 * PI, turns - 1;
    }
  }

  method FromOpposite(x: real) returns (s: real)
    ensures IsFromOpposite(x, s) && 0.0 <= s <= PI
  {
    ghost var turns;
    var r;
    r, turns := Wrap(x);
    WrappedScore(x, r, turns);
    s := Abs(Abs(r) - PI);
  }

  /** The heading of a lane less that of the docking lane. */
  function AngleBetween(trig: Trig, g: Graph, docking: nat, lane: nat): real
    requires g.Valid() && docking < |g.lanes| && lane < |g.lanes|
  {
    var into, out := g.lanes[docking], g.lanes[lane];
    trig.angle(Sub(g.waypoints[out.exit], g.waypoints[out.entry]))
    - trig.angle(Sub(g.waypoints[into.exit], g.waypoints[into.entry]))
  }

  // ----- opposite headings -----

  /** The cosine of an angle says how far it is from opposite. */
  lemma CosineOfScore(cos: real -> real, x: real, s: real)
    requires IsCosine(cos) && IsFromOpposite(x, s)
    ensures cos(x) == cos(PI - s)
  {
    var k :| s == Abs(x - OddPi(k));
    if x >= OddPi(k) {
      assert x == s - PI + 2.0 * PI * (k + 1) as real;
      Turns(cos, s - PI, k + 1);
      assert cos(-(PI - s)) == cos(PI - s);
      assert -(PI - s) == s - PI;
    } else {
      assert x == PI - s + 2.0 * PI * k as real;
      Turns(cos, PI - s, k);
    }
  }

  lemma {:induction false} Turns(cos: real -> real, x: real, k: int)
    requires IsCosine(cos)
    ensures cos(x + 2.0 * PI * k as real) == cos(x)
    decreases if k >= 0 then k else -k
  {
    if k > 0 {
      Turns(cos, x, k - 1);
      assert x + 2.0 * PI * k as real == (x + 2.0 * PI * (k - 1) as real) + 2.0 * PI;
    } else if k < 0 {
      Turns(cos, x, k + 1);
      assert x + 2.0 * PI * (k + 1) as real == (x + 2.0 * PI * k as real) + 2.0 * PI;
    }
  }

  /** The nearer to opposite, the smaller the cosine. */
  lemma ScoresCompare(cos: real -> real, x: real, y: real, s: real, t: real)
    requires IsCosine(cos) && IsFromOpposite(x, s) && IsFromOpposite(y, t) && 0.0 <= s <= PI && 0.0 <= t <= PI
    ensures s < t <==> cos(x) < cos(y)
  {
    hide IsFromOpposite;
    CosineOfScore(cos, x, s);
    CosineOfScore(cos, y, t);
    if s < t {
      assert cos(PI - t) > cos(PI - s);
    } else if t < s {
      assert cos(PI - s) > cos(PI - t);
    }
  }

  lemma RootIsPositive(sqrt: real -> real, d: Vec)
    requires IsRoot(sqrt)
    ensures sqrt(NormSq(d)) >= 0.0
    ensures sqrt(NormSq(d)) == 0.0 <==> d == ZERO
  {
    NormSqIsPositive(d);
    hide NormSq;
    var n := sqrt(NormSq(d));
    assert n * n == NormSq(d);
    if d == ZERO {
      ZeroProduct(n, n);
    }
  }

  lemma ScaledBack(p: real, d: Vec, e: Vec)
    requires p > 0.0
    ensures p * Dot(Scale(1.0 / p, d), e) == Dot(d, e)
  {
    var a := 1.0 / p;
    var (x, y) := (d.x * e.x, d.y * e.y);
    assert a * d.x * e.x == a * x && a * d.y * e.y == a * y;
    Undone(p, a, x);
    Undone(p, a, y);
  }

  lemma Undone(p: real, a: real, x: real)
    requires p * a == 1.0
    ensures p * (a * x) == x
  {
    assert p * (a * x) == p * a * x;
  }

  lemma SameFactor(p: real, q: real, x: real, y: real)
    requires p > 0.0 && q > 0.0 && p * q * x == p * q * y
    ensures x == y
  {
    assert p * q > 0.0;
    assert p * q * (x - y) == 0.0;
    ZeroProduct(p * q, x - y);
  }

  lemma UnitDot(p: real, q: real, d: Vec, e: Vec, v: real)
    requires p > 0.0 && q > 0.0 && p * q * v == Dot(d, e)
    ensures v == Dot(Scale(1.0 / p, d), Scale(1.0 / q, e))
  {
    hide Scale;
    var d', e' := Scale(1.0 / p, d), Scale(1.0 / q, e);
    ScaledBack(p, d, e');
    ScaledBack(q, e, d);
    assert Dot(d, e') == Dot(e', d) && Dot(e, d) == Dot(d, e);
    hide Dot;
    var x := Dot(d', e');
    assert p * q * x == q * (p * x);
    SameFactor(p, q, v, x);
  }

  /** The cosine between two directions is the dot product of their unit vectors. */
  lemma CosineIsDot(trig: Trig, d: Vec, e: Vec)
    requires trig.Valid()
    ensures trig.cos(trig.angle(d) - trig.angle(e)) == Dot(trig.Unit(d), trig.Unit(e))
  {
    hide IsCosine, IsRoot, Dot, NormSq, Scale;
    SameUnit(trig, d);
    SameUnit(trig, e);
    DirectionsCompare(trig, Pointed(d), Pointed(e));
  }

  /** A direction without length is taken for the x axis. */
  function Pointed(d: Vec): (d': Vec)
    ensures d' != ZERO
  {
    if d == ZERO then X_AXIS else d
  }

  lemma SameUnit(trig: Trig, d: Vec)
    requires trig.Valid()
    ensures trig.Unit(Pointed(d)) == trig.Unit(d) && trig.angle(Pointed(d)) == trig.angle(d)
  {
    hide IsCosine, IsRoot, Dot, NormSq, Scale;
    UnitOfAxis(trig.sqrt);
    RootIsPositive(trig.sqrt, d);
  }

  lemma DirectionsCompare(trig: Trig, d: Vec, e: Vec)
    requires trig.Valid() && d != ZERO && e != ZERO
    ensures trig.cos(trig.angle(d) - trig.angle(e)) == Dot(trig.Unit(d), trig.Unit(e))
  {
    hide IsCosine, IsRoot, Dot, NormSq, Scale;
    RootIsPositive(trig.sqrt, d);
    RootIsPositive(trig.sqrt, e);
    UnitDot(trig.Length(d), trig.Length(e), d, e, trig.cos(trig.angle(d) - trig.angle(e)));
  }

  lemma UnitOfAxis(sqrt: real -> real)
    requires IsRoot(sqrt)
    ensures sqrt(NormSq(X_AXIS)) == 1.0 && Scale(1.0 / sqrt(NormSq(X_AXIS)), X_AXIS) == X_AXIS
  {
    var n := sqrt(NormSq(X_AXIS));
    assert n >= 0.0 && n * n == 1.0;
    assert (n - 1.0) * (n + 1.0) == 0.0;
    ZeroProduct(n - 1.0, n + 1.0);
  }

  /**
   * How far the way from the dock to the far end of lane i agrees with the way along the
   * docking lane: one if they point the same way, minus one if they are opposite.
   */
  ghost function Agreement(trig: Trig, g: Graph, docking: nat, dock: nat, i: nat): real
    requires g.Valid() && docking < |g.lanes| && dock < |g.waypoints| && i < |g.lanes|
  {
    Dot(trig.Unit(Sub(g.waypoints[g.lanes[i].exit], g.waypoints[dock])),
        trig.Unit(Sub(g.waypoints[g.lanes[docking].exit], g.waypoints[g.lanes[docking].entry])))
  }

  /** Lane i leaves the dock, and is the first of those among the first n that do that agree least with the docking lane. */
  ghost predicate MostOpposite(trig: Trig, g: Graph, docking: nat, dock: nat, i: nat, n: nat)
    requires g.Valid() && docking < |g.lanes| && dock < |g.waypoints| && n <= |g.lanes|
  {
    && i < n && g.lanes[i].entry == dock
    && (forall j | 0 <= j < n && g.lanes[j].entry == dock ::
          Agreement(trig, g, docking, dock, i) <= Agreement(trig, g, docking, dock, j))
    && (forall j | 0 <= j < i && g.lanes[j].entry == dock ::
          Agreement(trig, g, docking, dock, i) < Agreement(trig, g, docking, dock, j))
  }

  /** The loop over all lanes with the best so far: it finds a lane exactly when some lane leaves the waypoint. */
  method FindBestApproachLane(trig: Trig, g: Graph, docking: nat, dock: nat) returns (best: Option<nat>)
    requires trig.Valid() && g.Valid() && docking < |g.lanes| && dock < |g.waypoints|
    ensures best.Some? <==> exists i :: 0 <= i < |g.lanes| && g.lanes[i].entry == dock
    ensures best.Some? ==> MostOpposite(trig, g, docking, dock, best.value, |g.lanes|)
  {
    hide IsFromOpposite, Agreement, AngleBetween, IsCosine, IsRoot;
    best := None;
    var bestDiff := PI + 1.0;
    for i := 0 to |g.lanes|
      invariant best.None? ==> bestDiff == PI + 1.0
      invariant best.None? <==> forall j | 0 <= j < i :: g.lanes[j].entry != dock
      invariant best.Some? ==>
        && MostOpposite(trig, g, docking, dock, best.value, i) && 0.0 <= bestDiff <= PI
        && IsFromOpposite(AngleBetween(trig, g, docking, best.value), bestDiff)
    {
      if g.lanes[i].entry == dock {
        var score := FromOpposite(AngleBetween(trig, g, docking, i));
        if best.Some? {
          LanesCompare(trig, g, docking, dock, i, best.value, score, bestDiff);
        }
        if score < bestDiff {
          bestDiff := score;
          best := Some(i);
        }
      }
    }
  }

  lemma LanesCompare(trig: Trig, g: Graph, docking: nat, dock: nat, i: nat, j: nat, s: real, t: real)
    requires trig.Valid() && g.Valid() && docking < |g.lanes| && dock < |g.waypoints| && i < |g.lanes| && j < |g.lanes|
    requires g.lanes[i].entry == dock && g.lanes[j].entry == dock
    requires IsFromOpposite(AngleBetween(trig, g, docking, i), s) && IsFromOpposite(AngleBetween(trig, g, docking, j), t)
    requires 0.0 <= s <= PI && 0.0 <= t <= PI
    ensures s < t <==> Agreement(trig, g, docking, dock, i) < Agreement(trig, g, docking, dock, j)
  {
    hide IsFromOpposite, IsRoot;
    ScoresCompare(trig.cos, AngleBetween(trig, g, docking, i), AngleBetween(trig, g, docking, j), s, t);
    var into := Sub(g.waypoints[g.lanes[docking].exit], g.waypoints[g.lanes[docking].entry]);
    CosineIsDot(trig, Sub(g.waypoints[g.lanes[i].exit], g.waypoints[dock]), into);
    CosineIsDot(trig, Sub(g.waypoints[g.lanes[j].exit], g.waypoints[dock]), into);
  }

  // ----- a dock request -----

  datatype Outcome =
    | NoGraph | NotNear | NoSuchDock | StayDocked | NoApproachLane | NoAdapter
    | Undocking(lane: nat, positions: seq<Vec>)

  ghost predicate LanesExist(g: Graph, lanes: seq<nat>) {
    forall i | 0 <= i < |lanes| :: lanes[i] < |g.lanes|
  }

  /** The first nearby lane whose exit is the named dock. */
  ghost predicate FirstMatch(g: Graph, nearby: seq<nat>, name: string, lane: nat)
    requires LanesExist(g, nearby)
  {
    exists i | 0 <= i < |nearby| ::
      && nearby[i] == lane && g.lanes[lane].dock == Some(name)
      && forall j | 0 <= j < i :: g.lanes[nearby[j]].dock != Some(name)
  }

  /** Some lane leaves the dock for a waypoint other than the one the docking lane comes from. */
  ghost predicate HasUndockPath(g: Graph, docking: nat)
    requires docking < |g.lanes|
  {
    exists i | 0 <= i < |g.lanes| :: g.lanes[i].entry == g.lanes[docking].exit && g.lanes[i].exit != g.lanes[docking].entry
  }

  ghost predicate Named(g: Graph, nearby: seq<nat>, name: string)
    requires LanesExist(g, nearby)
  {
    exists lane :: FirstMatch(g, nearby, name, lane)
  }

  /**
   * What a dock request comes to. The branch for a missing approach lane is never taken.
   * Both positions of an undocking path are the dock itself, because every lane considered
   * leaves the dock and the path goes to the entry of the chosen lane.
   */
  method Dock(trig: Trig, graph: Option<Graph>, nearby: seq<nat>, name: string, hasAdapter: bool)
    returns (o: Outcome, ghost docking: nat)
    requires trig.Valid() && (graph.Some? ==> graph.value.Valid() && LanesExist(graph.value, nearby))
    ensures o.NoGraph? <==> graph.None?
    ensures o.NotNear? <==> graph.Some? && nearby == []
    ensures o.NoSuchDock? <==> graph.Some? && nearby != [] && !Named(graph.value, nearby, name)
    ensures !o.NoApproachLane?
    ensures o.StayDocked? || o.NoAdapter? || o.Undocking? ==> FirstMatch(graph.value, nearby, name, docking)
    ensures o.StayDocked? ==> !HasUndockPath(graph.value, docking)
    ensures o.NoAdapter? ==> HasUndockPath(graph.value, docking) && !hasAdapter
    ensures o.Undocking? ==>
      && HasUndockPath(graph.value, docking) && hasAdapter
      && MostOpposite(trig, graph.value, docking, graph.value.lanes[docking].exit, o.lane, |graph.value.lanes|)
      && o.positions == [graph.value.waypoints[graph.value.lanes[docking].exit], graph.value.waypoints[graph.value.lanes[docking].exit]]
  {
    docking := 0;
    if graph.None? {
      return NoGraph, docking;
    }
    if nearby == [] {
      return NotNear, docking;
    }
    var g := graph.value;
    var found: Option<nat> := None;
    for i := 0 to |nearby|
      invariant found.None?
      invariant forall j | 0 <= j < i :: g.lanes[nearby[j]].dock != Some(name)
    {
      if g.lanes[nearby[i]].dock == Some(name) {
        found := Some(nearby[i]);
        assert FirstMatch(g, nearby, name, nearby[i]);
        break;
      }
    }
    if found.None? {
      return NoSuchDock, docking;
    }
    var lane := found.value;
    docking := lane;
    var dock := g.lanes[lane].exit;
    var hasUndockPaths := false;
    for i := 0 to |g.lanes|
      invariant !hasUndockPaths
      invariant forall j | 0 <= j < i :: !(g.lanes[j].entry == dock && g.lanes[j].exit != g.lanes[lane].entry)
    {
      if g.lanes[i].entry == dock && g.lanes[i].exit != g.lanes[lane].entry {
        hasUndockPaths := true;
        break;
      }
    }
    if !hasUndockPaths {
      return StayDocked, docking;
    }
    var approach := FindBestApproachLane(trig, g, lane, dock);
    if approach.None? {
      return NoApproachLane, docking;
    }
    var positions := [g.waypoints[dock], g.waypoints[g.lanes[approach.value].entry]];
    if !hasAdapter {
      return NoAdapter, docking;
    }
    return Undocking(approach.value, positions), docking;
  }
}
