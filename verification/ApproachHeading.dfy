/** Heading to hold at a lone target waypoint, taken from the lane the robot is nearest to. */
module ApproachHeading {
  import opened Common
  import opened Plane
  import opened TrafficGraph

  /** Squared lengths below this count as degenerate: one millionth, squared. */
  const DEGENERATE_SQ: real := 0.000001 * 0.000001

  function DistSq(p: Vec, q: Vec): real { NormSq(Sub(p, q)) }

  /** The point of the segment from a to b at parameter t. */
  function PointOn(a: Vec, b: Vec, t: real): Vec { Add(a, Scale(t, Sub(b, a))) }

  /** t forced into the interval from zero to one. */
  function Clamp(t: real): real { if t < 0.0 then 0.0 else if t > 1.0 then 1.0 else t }

  /** The squared distance from p to the segment from a to b. */
  function DistanceToLaneSq(p: Vec, a: Vec, b: Vec): real {
    var ab := Sub(b, a);
    if NormSq(ab) < DEGENERATE_SQ then DistSq(p, a)
    else DistSq(p, PointOn(a, b, Clamp(Dot(Sub(p, a), ab) / NormSq(ab))))
  }

  /** d is the squared distance from p to the nearest point of the segment. */
  ghost predicate IsSegmentDistance(p: Vec, a: Vec, b: Vec, d: real) {
    && (exists t: real :: 0.0 <= t <= 1.0 && d == DistSq(p, PointOn(a, b, t)))
    && forall t: real | 0.0 <= t <= 1.0 :: d <= DistSq(p, PointOn(a, b, t))
  }

  /** Along the segment, the squared distance is a parabola in the parameter. */
  lemma Parabola(p: Vec, a: Vec, b: Vec, t: real)
    ensures var ab, pa := Sub(b, a), Sub(p, a);
      DistSq(p, PointOn(a, b, t)) == NormSq(pa) - 2.0 * (t * Dot(pa, ab)) + t * t * NormSq(ab)
  {
    var ab, pa := Sub(b, a), Sub(p, a);
    assert Sub(p, PointOn(a, b, t)) == Sub(pa, Scale(t, ab));
    ParabolaAt(pa, ab, t);
  }

  lemma ParabolaAt(pa: Vec, ab: Vec, t: real)
    ensures NormSq(Sub(pa, Scale(t, ab))) == NormSq(pa) - 2.0 * (t * Dot(pa, ab)) + t * t * NormSq(ab)
  {
  }

  /** Clamping the vertex of a parabola minimises it over the interval. */
  lemma ClampedVertex(m: real, n: real, t: real)
    requires n > 0.0 && 0.0 <= t <= 1.0
    ensures var c := Clamp(m / n); -2.0 * (c * m) + c * c * n <= -2.0 * (t * m) + t * t * n
  {
    var v := m / n;
    var c := Clamp(v);
    assert m == v * n;
    assert (-2.0 * (t * m) + t * t * n) - (-2.0 * (c * m) + c * c * n) == n * ((t - c) * (t + c - 2.0 * v));
    assert (t - c) * (t + c - 2.0 * v) >= 0.0 by {
      if c == v {
        SquareIsPositive(t - c);
      }
    }
    assert n * ((t - c) * (t + c - 2.0 * v)) >= 0.0;
  }

  /** On a lane that is not degenerate, the code computes the distance to the nearest point of the lane. */
  lemma DistanceIsNearest(p: Vec, a: Vec, b: Vec)
    requires NormSq(Sub(b, a)) >= DEGENERATE_SQ
    ensures IsSegmentDistance(p, a, b, DistanceToLaneSq(p, a, b))
  {
    hide NormSq, Dot, PointOn, DistSq;
    var ab, pa := Sub(b, a), Sub(p, a);
    var c := Clamp(Dot(pa, ab) / NormSq(ab));
    assert 0.0 <= c <= 1.0;
    Parabola(p, a, b, c);
    forall t: real | 0.0 <= t <= 1.0 ensures DistanceToLaneSq(p, a, b) <= DistSq(p, PointOn(a, b, t)) {
      Parabola(p, a, b, t);
      ClampedVertex(Dot(pa, ab), NormSq(ab), t);
    }
  }

  /** A lane that ends at the target and has a direction. */
  predicate Arrives(g: Graph, target: nat, i: nat)
    requires g.Valid() && i < |g.lanes|
  {
    && g.lanes[i].exit == target
    && DistSq(g.waypoints[target], g.waypoints[g.lanes[i].entry]) >= 0.000000000001
  }

  function Direction(g: Graph, i: nat): Vec
    requires g.Valid() && i < |g.lanes|
  {
    Sub(g.waypoints[g.lanes[i].exit], g.waypoints[g.lanes[i].entry])
  }

  /** Squared distance from the robot to lane i. */
  function LaneDistanceSq(g: Graph, robot: Vec, i: nat): real
    requires g.Valid() && i < |g.lanes|
  {
    DistanceToLaneSq(robot, g.waypoints[g.lanes[i].entry], g.waypoints[g.lanes[i].exit])
  }

  /** Lane i is the first among the nearest of the first n lanes that arrive. */
  ghost predicate FirstNearest(g: Graph, target: nat, robot: Vec, i: nat, n: nat)
    requires g.Valid() && n <= |g.lanes|
  {
    && i < n && Arrives(g, target, i)
    && (forall j | 0 <= j < n && Arrives(g, target, j) :: LaneDistanceSq(g, robot, i) <= LaneDistanceSq(g, robot, j))
    && (forall j | 0 <= j < i && Arrives(g, target, j) :: LaneDistanceSq(g, robot, i) < LaneDistanceSq(g, robot, j))
  }

  /** The direction to hold, or none: the loop over all lanes with the best so far. */
  method ApproachYawFor(g: Option<Graph>, graphIndex: Option<nat>, robot: Vec) returns (yaw: Option<Vec>, ghost lane: nat)
    requires g.Some? ==> g.value.Valid()
    ensures yaw.Some? <==>
      g.Some? && graphIndex.Some? && exists i :: 0 <= i < |g.value.lanes| && Arrives(g.value, graphIndex.value, i)
    ensures yaw.Some? ==>
      && FirstNearest(g.value, graphIndex.value, robot, lane, |g.value.lanes|)
      && var (exit, entry) := (g.value.waypoints[graphIndex.value], g.value.waypoints[g.value.lanes[lane].entry]);
         yaw.value == Vec(exit.x - entry.x, exit.y - entry.y)
  {
    yaw, lane := None, 0;
    if graphIndex.None? || g.None? {
      return;
    }
    var graph, target := g.value, graphIndex.value;
    var nearest: Option<real> := None;
    for i := 0 to |graph.lanes|
      invariant yaw.Some? == nearest.Some?
      invariant yaw.Some? <==> exists j :: 0 <= j < i && Arrives(graph, target, j)
      invariant yaw.Some? ==>
        && FirstNearest(graph, target, robot, lane, i)
        && yaw.value == Direction(graph, lane) && nearest.value == LaneDistanceSq(graph, robot, lane)
    {
      if graph.lanes[i].exit != target {
        continue;
      }
      var direction := Direction(graph, i);
      if NormSq(direction) < DEGENERATE_SQ {
        continue;
      }
      assert Arrives(graph, target, i);
      var d := LaneDistanceSq(graph, robot, i);
      if nearest.None? || d < nearest.value {
        nearest, yaw := Some(d), Some(direction);
        lane := i;
      }
    }
  }

  /**
   * The lane whose heading is held is truly the nearest: some point of it is no farther
   * from the robot than any point of any lane that arrives.
   */
  lemma HeadingIsOfNearestLane(g: Graph, target: nat, robot: Vec, i: nat, j: nat, t: real)
    requires g.Valid() && FirstNearest(g, target, robot, i, |g.lanes|)
    requires j < |g.lanes| && Arrives(g, target, j) && 0.0 <= t <= 1.0
    ensures exists s: real | 0.0 <= s <= 1.0 ::
              DistSq(robot, PointOn(g.waypoints[g.lanes[i].entry], g.waypoints[g.lanes[i].exit], s)) <=
              DistSq(robot, PointOn(g.waypoints[g.lanes[j].entry], g.waypoints[g.lanes[j].exit], t))
  {
    hide NormSq, PointOn, DistanceToLaneSq;
    DistanceIsNearest(robot, g.waypoints[g.lanes[i].entry], g.waypoints[g.lanes[i].exit]);
    DistanceIsNearest(robot, g.waypoints[g.lanes[j].entry], g.waypoints[g.lanes[j].exit]);
  }
}
