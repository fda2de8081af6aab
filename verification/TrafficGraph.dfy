/** The part of the traffic graph the adapter reads: waypoints and directed lanes. */
module TrafficGraph {
  import opened Common

  datatype Lane = Lane(entry: nat, exit: nat, speedLimit: Option<real>, dock: Option<string>)

  datatype Graph = Graph(waypoints: seq<Vec>, lanes: seq<Lane>) {
    /** Every lane joins two waypoints of the graph. */
    ghost predicate Valid() {
      forall i | 0 <= i < |lanes| :: lanes[i].entry < |waypoints| && lanes[i].exit < |waypoints|
    }
  }

  ghost predicate Edge(g: Graph, a: nat, b: nat) {
    exists i | 0 <= i < |g.lanes| :: g.lanes[i].entry == a && g.lanes[i].exit == b
  }

  /** The distinct waypoints one lane away from w, in either direction. */
  ghost function Neighbors(g: Graph, w: nat): set<nat> {
    (set i | 0 <= i < |g.lanes| && g.lanes[i].entry == w :: g.lanes[i].exit) +
    (set i | 0 <= i < |g.lanes| && g.lanes[i].exit == w :: g.lanes[i].entry)
  }

  ghost predicate Junction(g: Graph, w: nat) {
    |Neighbors(g, w)| >= 3
  }

  function End(p: seq<nat>): nat
    requires p != []
  {
    p[|p| - 1]
  }

  /** A directed walk along lanes that begins at start. */
  ghost predicate IsWalk(g: Graph, start: nat, p: seq<nat>) {
    && p != []
    && p[0] == start
    && forall i | 0 < i < |p| :: Edge(g, p[i - 1], p[i])
  }

  /** b can be reached from a in d lanes and not in fewer. */
  ghost predicate AtDistance(g: Graph, a: nat, b: nat, d: nat) {
    && (exists p :: IsWalk(g, a, p) && End(p) == b && |p| == d + 1)
    && forall p | IsWalk(g, a, p) && End(p) == b :: |p| >= d + 1
  }
}
