/** Speed limits and lane messages that accompany a path sent to the robot. */
module LaneContext {
  import opened Common
  import opened TrafficGraph

  /** The part of a plan waypoint that decides lanes. */
  datatype PlanWaypoint = PlanWaypoint(approachLanes: seq<nat>, graphIndex: Option<nat>)

  /** What a navigation session keeps about the lanes of its path. */
  datatype Context = Context(
    approachLanes: seq<seq<nat>>, graphIndices: seq<Option<nat>>, speedLimits: seq<real>)
  {
    ghost predicate Valid() {
      |approachLanes| == |graphIndices| == |speedLimits|
    }
  }

  // ----- the slowest arriving lane -----

  function Least(x: real, y: real): real { if y < x then y else x }

  /** One step of the loop over arriving lanes that have a limit. */
  function Tighten(limit: real, next: real): real {
    if limit > 0.0 then Least(limit, next) else next
  }

  /** The loop over the limits of the arriving lanes, as a fold. */
  ghost function Tightest(limits: seq<real>): real {
    if limits == [] then 0.0 else Tighten(Tightest(limits[..|limits| - 1]), limits[|limits| - 1])
  }

  /** The limits that lanes declare, in the order of the lanes. */
  ghost function Declared(g: Graph, lanes: seq<nat>): seq<real>
    requires forall i | 0 <= i < |lanes| :: lanes[i] < |g.lanes|
  {
    if lanes == [] then []
    else
      var rest, limit := Declared(g, lanes[..|lanes| - 1]), g.lanes[lanes[|lanes| - 1]].speedLimit;
      if limit.Some? then rest + [limit.value] else rest
  }

  ghost predicate AllPositive(limits: seq<real>) {
    forall i | 0 <= i < |limits| :: limits[i] > 0.0
  }

  ghost predicate AllEqual(limits: seq<real>) {
    forall i, j | 0 <= i < |limits| && 0 <= j < |limits| :: limits[i] == limits[j]
  }

  /** Positive limits: the result is the least of them, and zero when there is none. */
  lemma {:induction false} TightestIsLeast(limits: seq<real>)
    requires AllPositive(limits)
    ensures limits == [] ==> Tightest(limits) == 0.0
    ensures limits != [] ==> Tightest(limits) in limits && forall i | 0 <= i < |limits| :: Tightest(limits) <= limits[i]
  {
    if limits != [] {
      var rest := limits[..|limits| - 1];
      TightestIsLeast(rest);
      assert limits == rest + [limits[|limits| - 1]];
    }
  }

  /** The result depends on which lanes arrive and not on their order. */
  ghost predicate OrderFree(limits: seq<real>) {
    forall other | multiset(other) == multiset(limits) :: Tightest(other) == Tightest(limits)
  }

  lemma ElementKept(a: seq<real>, b: seq<real>, i: nat)
    requires multiset(a) == multiset(b) && i < |a|
    ensures a[i] in b
  {
    assert a[i] in multiset(a);
  }

  lemma SameLength(a: seq<real>, b: seq<real>)
    requires multiset(a) == multiset(b)
    ensures |a| == |b|
  {
    assert |multiset(a)| == |a| && |multiset(b)| == |b|;
  }

  lemma PositiveIsOrderFree(limits: seq<real>)
    requires AllPositive(limits)
    ensures OrderFree(limits)
  {
    TightestIsLeast(limits);
    forall other | multiset(other) == multiset(limits) ensures Tightest(other) == Tightest(limits) {
      SameLength(other, limits);
      forall i | 0 <= i < |other| ensures other[i] > 0.0 {
        ElementKept(other, limits, i);
      }
      TightestIsLeast(other);
      if limits != [] {
        var i :| 0 <= i < |other| && other[i] == Tightest(other);
        var j :| 0 <= j < |limits| && limits[j] == Tightest(limits);
        ElementKept(other, limits, i);
        ElementKept(limits, other, j);
      }
    }
  }

  lemma {:induction false} TightestOfEqual(limits: seq<real>, x: real)
    requires limits != [] && forall i | 0 <= i < |limits| :: limits[i] == x
    ensures Tightest(limits) == x
  {
    if |limits| > 1 {
      TightestOfEqual(limits[..|limits| - 1], x);
    } else {
      assert limits[..0] == [];
    }
  }

  lemma EqualIsOrderFree(limits: seq<real>)
    requires AllEqual(limits)
    ensures OrderFree(limits)
  {
    forall other | multiset(other) == multiset(limits) ensures Tightest(other) == Tightest(limits) {
      SameLength(other, limits);
      if limits != [] {
        forall i | 0 <= i < |other| ensures other[i] == limits[0] {
          ElementKept(other, limits, i);
        }
        TightestOfEqual(limits, limits[0]);
        TightestOfEqual(other, limits[0]);
      }
    }
  }

  /** A limit that is not positive erases what came before it. */
  lemma LastDecides(rest: seq<real>, x: real, y: real)
    requires x <= 0.0
    ensures Tightest(rest + [y, x]) == x
    ensures Tightest(rest + [x, y]) == y
  {
    assert (rest + [y, x])[..|rest| + 1] == rest + [y];
    assert (rest + [x, y])[..|rest| + 1] == rest + [x];
    assert (rest + [x])[..|rest|] == rest;
  }

  lemma MovedToEnd(limits: seq<real>, i: nat, j: nat) returns (rest: seq<real>)
    requires i < j < |limits|
    ensures multiset(rest + [limits[i], limits[j]]) == multiset(limits)
    ensures multiset(rest + [limits[j], limits[i]]) == multiset(limits)
  {
    rest := limits[..i] + limits[i + 1..j] + limits[j + 1..];
    assert limits == limits[..i] + [limits[i]] + limits[i + 1..j] + [limits[j]] + limits[j + 1..];
  }

  /**
   * The fold is independent of the order of the lanes exactly when every declared limit
   * is positive or all declared limits are the same.
   */
  lemma OrderFreeIff(limits: seq<real>)
    ensures OrderFree(limits) <==> AllPositive(limits) || AllEqual(limits)
  {
    if AllPositive(limits) {
      PositiveIsOrderFree(limits);
    } else if AllEqual(limits) {
      EqualIsOrderFree(limits);
    } else {
      var i :| 0 <= i < |limits| && limits[i] <= 0.0;
      var j :| 0 <= j < |limits| && limits[j] != limits[i];
      var rest := MovedToEnd(limits, if i < j then i else j, if i < j then j else i);
      LastDecides(rest, limits[i], limits[j]);
      assert Tightest(rest + [limits[i], limits[j]]) != Tightest(rest + [limits[j], limits[i]]);
    }
  }

  method ApproachLimit(g: Graph, lanes: seq<nat>) returns (limit: real)
    requires forall i | 0 <= i < |lanes| :: lanes[i] < |g.lanes|
    ensures limit == Tightest(Declared(g, lanes))
  {
    limit := 0.0;
    for i := 0 to |lanes|
      invariant limit == Tightest(Declared(g, lanes[..i]))
    {
      var laneLimit := g.lanes[lanes[i]].speedLimit;
      assert lanes[..i + 1][..i] == lanes[..i];
      if laneLimit.Some? {
        ghost var before := Declared(g, lanes[..i]);
        assert (before + [laneLimit.value])[..|before|] == before;
        limit := if limit > 0.0 then Least(limit, laneLimit.value) else laneLimit.value;
      }
    }
    assert lanes[..|lanes|] == lanes;
  }

  /** The lane fields of the session created for a path. */
  method BuildContext(g: Graph, waypoints: seq<PlanWaypoint>) returns (c: Context)
    requires forall w | w in waypoints :: forall i | 0 <= i < |w.approachLanes| :: w.approachLanes[i] < |g.lanes|
    ensures c.Valid() && |c.speedLimits| == |waypoints|
    ensures forall i | 0 <= i < |waypoints| ::
      && c.approachLanes[i] == waypoints[i].approachLanes
      && c.graphIndices[i] == waypoints[i].graphIndex
      && c.speedLimits[i] == Tightest(Declared(g, waypoints[i].approachLanes))
  {
    c := Context([], [], []);
    for n := 0 to |waypoints|
      invariant c.Valid() && |c.speedLimits| == n
      invariant forall i | 0 <= i < n ::
        && c.approachLanes[i] == waypoints[i].approachLanes
        && c.graphIndices[i] == waypoints[i].graphIndex
        && c.speedLimits[i] == Tightest(Declared(g, waypoints[i].approachLanes))
    {
      var w := waypoints[n];
      var limit := ApproachLimit(g, w.approachLanes);
      c := Context(c.approachLanes + [w.approachLanes], c.graphIndices + [w.graphIndex], c.speedLimits + [limit]);
    }
  }

  // ----- lane messages -----

  function Digit(n: nat): char
    requires n < 10
  {
    "0123456789"[n]
  }

  function Decimal(n: nat): (s: string)
    ensures s != []
  {
    if n < 10 then [Digit(n)] else Decimal(n / 10) + [Digit(n % 10)]
  }

  datatype LaneMsg = LaneMsg(id: string, entry: string, exit: string, speedLimit: real)

  /** The number that a string of decimal digits stands for. */
  function Value(s: string): int {
    if s == [] then 0 else 10 * Value(s[..|s| - 1]) + (s[|s| - 1] as int - '0' as int)
  }

  /** s is how the number is written: only digits, and no leading zero. */
  ghost predicate IsNumeral(s: string, n: nat) {
    && s != [] && Value(s) == n
    && (|s| > 1 ==> s[0] != '0')
    && forall k | 0 <= k < |s| :: '0' <= s[k] <= '9'
  }

  /** The id is the prefix followed by the number. */
  ghost predicate Names(id: string, prefix: string, n: nat) {
    prefix <= id && IsNumeral(id[|prefix|..], n)
  }

  lemma {:induction false} DecimalIsNumeral(n: nat)
    ensures IsNumeral(Decimal(n), n)
    ensures n > 0 ==> Decimal(n)[0] != '0'
  {
    if n >= 10 {
      DecimalIsNumeral(n / 10);
      assert Decimal(n)[..|Decimal(n)| - 1] == Decimal(n / 10);
    } else {
      assert Value([]) == 0 && Decimal(n)[..0] == [];
    }
  }

  /** A numeral of more than one digit stands for at least ten, one digit for less. */
  lemma {:induction false} NumeralBounds(s: string, n: nat)
    requires IsNumeral(s, n)
    ensures |s| == 1 <==> n < 10
    ensures |s| > 1 ==> IsNumeral(s[..|s| - 1], n / 10) && s[|s| - 1] as int - '0' as int == n % 10
    ensures s[0] != '0' ==> n > 0
  {
    var rest := s[..|s| - 1];
    if |s| > 1 {
      ValueIsPositive(rest);
      assert IsNumeral(rest, Value(rest));
      NumeralBounds(rest, Value(rest));
    } else {
      assert rest == [] && Value(rest) == 0;
    }
  }

  lemma {:induction false} ValueIsPositive(s: string)
    requires forall k | 0 <= k < |s| :: '0' <= s[k] <= '9'
    ensures Value(s) >= 0
  {
    if s != [] {
      ValueIsPositive(s[..|s| - 1]);
    }
  }

  /** A number is written in one way. */
  lemma {:induction false} NumeralIsUnique(s: string, t: string, n: nat)
    requires IsNumeral(s, n) && IsNumeral(t, n)
    ensures s == t
    decreases |s|
  {
    NumeralBounds(s, n);
    NumeralBounds(t, n);
    if |s| > 1 {
      NumeralIsUnique(s[..|s| - 1], t[..|t| - 1], n / 10);
      assert s == s[..|s| - 1] + [s[|s| - 1]] && t == t[..|t| - 1] + [t[|t| - 1]];
    } else {
      assert s[..0] == [] && t[..0] == [] && Value(s[..0]) == 0;
    }
  }

  function WaypointId(i: nat): (id: string)
    ensures Names(id, "wp_", i)
  {
    DecimalIsNumeral(i);
    var id := "wp_" + Decimal(i);
    assert id[3..] == Decimal(i);
    id
  }

  function LaneId(i: nat): (id: string)
    ensures Names(id, "lane_", i)
  {
    DecimalIsNumeral(i);
    var id := "lane_" + Decimal(i);
    assert id[5..] == Decimal(i);
    id
  }

  /** Among ids with one prefix, an id names one number and a number has one id: waypoints of a path never share one. */
  lemma IdsAreDistinct(prefix: string, id: string, id': string, m: nat, n: nat)
    requires Names(id, prefix, m) && Names(id', prefix, n)
    ensures id == id' <==> m == n
  {
    if m == n {
      NumeralIsUnique(id[|prefix|..], id'[|prefix|..], m);
      assert id == prefix + id[|prefix|..] && id' == prefix + id'[|prefix|..];
    }
  }

  /** Lane i of the messages joins waypoints i and i + 1 and carries this limit. */
  ghost predicate IsLane(lane: LaneMsg, i: nat, limit: real) {
    && Names(lane.id, "lane_", i)
    && Names(lane.entry, "wp_", i)
    && Names(lane.exit, "wp_", i + 1)
    && lane.speedLimit == limit
  }

  /** One lane from each waypoint to the next, and no two lanes of a path share an id. */
  method GenerateLanes(waypointCount: nat, speedLimits: seq<real>) returns (lanes: seq<LaneMsg>)
    ensures |lanes| == if waypointCount == 0 then 0 else waypointCount - 1
    ensures forall i | 0 <= i < |lanes| :: IsLane(lanes[i], i, if i + 1 < |speedLimits| then speedLimits[i + 1] else 0.0)
    ensures forall i, j | 0 <= i < |lanes| && 0 <= j < |lanes| && lanes[i].id == lanes[j].id :: i == j
  {
    hide Names;
    lanes := [];
    var i := 0;
    while i + 1 < waypointCount
      invariant i == |lanes| && (i == 0 || i < waypointCount)
      invariant forall k | 0 <= k < i :: IsLane(lanes[k], k, if k + 1 < |speedLimits| then speedLimits[k + 1] else 0.0)
      decreases waypointCount - i
    {
      var limit := 0.0;
      if i + 1 < |speedLimits| {
        limit := speedLimits[i + 1];
      }
      lanes := lanes + [LaneMsg(LaneId(i), WaypointId(i), WaypointId(i + 1), limit)];
      i := i + 1;
    }
    forall k, j | 0 <= k < |lanes| && 0 <= j < |lanes| && lanes[k].id == lanes[j].id ensures k == j {
      IdsAreDistinct("lane_", lanes[k].id, lanes[j].id, k, j);
    }
  }

  /** The limits that the lanes arriving at a waypoint declare. */
  ghost predicate PositiveLimits(g: Graph, w: PlanWaypoint)
    requires forall i | 0 <= i < |w.approachLanes| :: w.approachLanes[i] < |g.lanes|
  {
    AllPositive(Declared(g, w.approachLanes))
  }

  lemma {:induction false} DeclaredAre(g: Graph, lanes: seq<nat>, x: real)
    requires forall i | 0 <= i < |lanes| :: lanes[i] < |g.lanes|
    ensures x in Declared(g, lanes) <==> exists i | 0 <= i < |lanes| :: g.lanes[lanes[i]].speedLimit == Some(x)
  {
    if lanes != [] {
      var rest, last := lanes[..|lanes| - 1], lanes[|lanes| - 1];
      assert lanes == rest + [last];
      DeclaredAre(g, rest, x);
      forall i | 0 <= i < |rest| && g.lanes[rest[i]].speedLimit == Some(x)
        ensures g.lanes[lanes[i]].speedLimit == Some(x)
      {
      }
    }
  }

  /**
   * The lanes sent with a path: one between each pair of consecutive waypoints, named after
   * them, each carrying the least limit of the lanes that arrive at its exit, and zero when
   * none of those declares one.
   */
  method PathLanes(g: Graph, waypoints: seq<PlanWaypoint>) returns (c: Context, lanes: seq<LaneMsg>)
    requires forall w | w in waypoints :: forall i | 0 <= i < |w.approachLanes| :: w.approachLanes[i] < |g.lanes|
    requires forall w | w in waypoints :: PositiveLimits(g, w)
    ensures c.Valid() && |c.speedLimits| == |waypoints|
    ensures |lanes| == if waypoints == [] then 0 else |waypoints| - 1
    ensures forall i, j | 0 <= i < |lanes| && 0 <= j < |lanes| && lanes[i].id == lanes[j].id :: i == j
    ensures forall i | 0 <= i < |lanes| ::
      IsLane(lanes[i], i, lanes[i].speedLimit) && IsArrivingLimit(g, waypoints[i + 1].approachLanes, lanes[i].speedLimit)
  {
    hide Names;
    c := BuildContext(g, waypoints);
    lanes := GenerateLanes(|waypoints|, c.speedLimits);
    forall i | 0 <= i < |lanes| ensures IsArrivingLimit(g, waypoints[i + 1].approachLanes, lanes[i].speedLimit) {
      assert PositiveLimits(g, waypoints[i + 1]);
      LimitArrives(g, waypoints[i + 1].approachLanes);
    }
  }

  /** limit is the least that some lane declares, or zero when none declares one. */
  ghost predicate IsArrivingLimit(g: Graph, lanes: seq<nat>, limit: real)
    requires forall i | 0 <= i < |lanes| :: lanes[i] < |g.lanes|
  {
    if forall i | 0 <= i < |lanes| :: g.lanes[lanes[i]].speedLimit.None? then limit == 0.0
    else
      && (exists i | 0 <= i < |lanes| :: g.lanes[lanes[i]].speedLimit == Some(limit))
      && forall i | 0 <= i < |lanes| && g.lanes[lanes[i]].speedLimit.Some? :: limit <= g.lanes[lanes[i]].speedLimit.value
  }

  lemma LimitArrives(g: Graph, lanes: seq<nat>)
    requires forall i | 0 <= i < |lanes| :: lanes[i] < |g.lanes|
    requires AllPositive(Declared(g, lanes))
    ensures IsArrivingLimit(g, lanes, Tightest(Declared(g, lanes)))
  {
    var limits := Declared(g, lanes);
    TightestIsLeast(limits);
    forall i | 0 <= i < |lanes| && g.lanes[lanes[i]].speedLimit.Some?
      ensures limits != [] && Tightest(limits) <= g.lanes[lanes[i]].speedLimit.value
    {
      DeclaredAre(g, lanes, g.lanes[lanes[i]].speedLimit.value);
    }
    if limits != [] {
      DeclaredAre(g, lanes, Tightest(limits));
    }
  }

  // ----- lanes while navigating -----

  datatype LaneInfo = LaneInfo(lanes: seq<nat>, graphIndex: Option<nat>)

  /** Whatever target index the robot reports, no sequence is indexed out of range. */
  method GetNavigationLanes(session: Option<Context>, target: nat) returns (info: Option<LaneInfo>)
    requires session.Some? ==> session.value.Valid()
    ensures info.Some? <==> session.Some? && target < |session.value.approachLanes|
    ensures info.Some? ==>
      var c := session.value;
      && info.value.graphIndex == c.graphIndices[target]
      && (c.approachLanes[target] != [] ==> info.value.lanes == c.approachLanes[target])
      && (c.approachLanes[target] == [] ==>
            info.value.lanes == if target + 1 < |c.approachLanes| then c.approachLanes[target + 1] else [])
  {
    if session.None? {
      return None;
    }
    var c := session.value;
    if target >= |c.approachLanes| {
      return None;
    }
    var lanes := c.approachLanes[target];
    if lanes == [] && target + 1 < |c.approachLanes| {
      lanes := c.approachLanes[target + 1];
    }
    return Some(LaneInfo(lanes, c.graphIndices[target]));
  }
}
