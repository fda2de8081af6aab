/** Order by length first, then lexicographically by waypoint index. */
module ShortLex {
  ghost predicate LexLess(a: seq<nat>, b: seq<nat>)
    requires |a| == |b|
  {
    exists i | 0 <= i < |a| :: a[..i] == b[..i] && a[i] < b[i]
  }

  ghost predicate Less(a: seq<nat>, b: seq<nat>) {
    |a| < |b| || (|a| == |b| && LexLess(a, b))
  }

  ghost predicate Leq(a: seq<nat>, b: seq<nat>) {
    a == b || Less(a, b)
  }

  lemma Transitive(a: seq<nat>, b: seq<nat>, c: seq<nat>)
    requires Leq(a, b) && Leq(b, c)
    ensures Leq(a, c)
    ensures Less(a, b) || Less(b, c) ==> Less(a, c)
  {
    if a != b && b != c && |a| == |b| == |c| {
      var i :| 0 <= i < |a| && a[..i] == b[..i] && a[i] < b[i];
      var j :| 0 <= j < |b| && b[..j] == c[..j] && b[j] < c[j];
      var k := if i < j then i else j;
      assert a[..k] == a[..i][..k] == b[..i][..k] == b[..j][..k] == c[..j][..k] == c[..k];
      assert a[k] < c[k] by {
        if i < j { assert b[i] == b[..j][i] == c[..j][i]; }
        if j < i { assert a[j] == a[..i][j] == b[..i][j]; }
      }
    }
  }

  lemma Antisymmetric(a: seq<nat>, b: seq<nat>)
    requires Leq(a, b) && Leq(b, a)
    ensures a == b
  {
    if a != b {
      var i :| 0 <= i < |a| && a[..i] == b[..i] && a[i] < b[i];
      forall j | 0 <= j < |a| ensures b[..j] == a[..j] ==> b[j] >= a[j] {
        if i < j {
          assert a[..j][i] != b[..j][i];
        } else if j < i {
          assert a[..i][j] == b[..i][j];
        }
      }
    }
  }

  /** Appending keeps a strict order, whatever is appended. */
  lemma AppendStrict(a: seq<nat>, b: seq<nat>, x: nat, y: nat)
    requires Less(a, b) || (a == b && x < y)
    ensures Less(a + [x], b + [y])
  {
    if |a| == |b| {
      var i := |a|;
      if a != b {
        i :| 0 <= i < |a| && a[..i] == b[..i] && a[i] < b[i];
      }
      assert (a + [x])[..i] == a[..i] == b[..i] == (b + [y])[..i];
      assert (a + [x])[i] < (b + [y])[i];
    }
  }
}

/**
 * Search for an undocking path: breadth first over directed lanes, up to a depth cap,
 * for the nearest waypoint with three or more distinct neighbours.
 */
module UndockSearch {
  import opened TrafficGraph
  import opened ShortLex

  const MAX_DEPTH: nat := 5

  /**
   * A way out of the dock: a walk of at least one and fewer than cap lanes that ends
   * at a junction other than the start.
   */
  ghost predicate IsUndockWalk(g: Graph, start: nat, cap: nat, p: seq<nat>) {
    && IsWalk(g, start, p)
    && 2 <= |p| <= cap
    && End(p) != start
    && Junction(g, End(p))
  }

  /** The shortest way out, and the lexicographically least of the shortest. */
  ghost predicate IsBestUndockWalk(g: Graph, start: nat, cap: nat, p: seq<nat>) {
    && IsUndockWalk(g, start, cap, p)
    && forall q | IsUndockWalk(g, start, cap, q) :: Leq(p, q)
  }

  // ----- the loops over lanes -----

  method DistinctNeighbors(g: Graph, w: nat) returns (neighbors: set<nat>)
    ensures neighbors == Neighbors(g, w)
  {
    neighbors := {};
    for laneId := 0 to |g.lanes|
      invariant neighbors ==
                (set i | 0 <= i < laneId && g.lanes[i].entry == w :: g.lanes[i].exit) +
                (set i | 0 <= i < laneId && g.lanes[i].exit == w :: g.lanes[i].entry)
    {
      var lane := g.lanes[laneId];
      if lane.entry == w {
        neighbors := neighbors + {lane.exit};
      }
      if lane.exit == w {
        neighbors := neighbors + {lane.entry};
      }
    }
  }

  method GetOutgoingLanes(g: Graph, w: nat) returns (outgoing: seq<nat>)
    ensures forall i | 0 <= i < |outgoing| :: outgoing[i] < |g.lanes| && g.lanes[outgoing[i]].entry == w
    ensures forall i, j | 0 <= i < j < |outgoing| :: outgoing[i] < outgoing[j]
    ensures forall l | 0 <= l < |g.lanes| && g.lanes[l].entry == w :: l in outgoing
  {
    outgoing := [];
    for laneId := 0 to |g.lanes|
      invariant forall i | 0 <= i < |outgoing| :: outgoing[i] < laneId && g.lanes[outgoing[i]].entry == w
      invariant forall i, j | 0 <= i < j < |outgoing| :: outgoing[i] < outgoing[j]
      invariant forall l | 0 <= l < laneId && g.lanes[l].entry == w :: l in outgoing
    {
      if g.lanes[laneId].entry == w {
        outgoing := outgoing + [laneId];
      }
    }
  }

  method UnvisitedDestinations(g: Graph, w: nat, visited: set<nat>) returns (unvisited: set<nat>)
    ensures forall x :: x in unvisited <==> Edge(g, w, x) && x !in visited
    ensures unvisited <= Exits(g)
  {
    var outgoing := GetOutgoingLanes(g, w);
    unvisited := {};
    for i := 0 to |outgoing|
      invariant forall x :: x in unvisited <==>
        x !in visited && exists j | 0 <= j < i :: g.lanes[outgoing[j]].exit == x
    {
      var next := g.lanes[outgoing[i]].exit;
      if next !in visited {
        unvisited := unvisited + {next};
      }
    }
    forall x | Edge(g, w, x) && x !in visited ensures x in unvisited {
      var l :| 0 <= l < |g.lanes| && g.lanes[l].entry == w && g.lanes[l].exit == x;
      assert l in outgoing;
    }
  }

  /** Every waypoint the search can ever enqueue after the start. */
  ghost function Exits(g: Graph): set<nat> {
    set i | 0 <= i < |g.lanes| :: g.lanes[i].exit
  }

  // ----- the search -----

  datatype Entry = Entry(wp: nat, depth: nat, path: seq<nat>)

  /** The queue entry the code pushes for a path. */
  function EntryOf(p: seq<nat>): Entry
    requires p != []
  {
    Entry(End(p), |p| - 1, p)
  }

  /** found[i] extends an already expanded path by one lane. */
  ghost predicate HasParent(g: Graph, found: seq<seq<nat>>, k: nat, p: seq<nat>)
    requires k <= |found|
  {
    p != [] && exists j | 0 <= j < k :: found[j] != [] && p == found[j] + [End(p)] && Edge(g, End(found[j]), End(p))
  }

  /** Every lane out of found[j] leads to a waypoint already reached no later than through j. */
  ghost predicate Expanded(g: Graph, found: seq<seq<nat>>, j: nat)
    requires j < |found| && found[j] != []
  {
    forall w | Edge(g, End(found[j]), w) ::
      exists i | 0 <= i < |found| :: found[i] != [] && End(found[i]) == w && Leq(found[i], found[j] + [w])
  }

  /** Everything enqueued so far, in order: walks from the start, strictly increasing, each grown from an older one. */
  ghost predicate Ordered(g: Graph, start: nat, found: seq<seq<nat>>, k: nat) {
    && found != [] && k <= |found|
    && found[0] == [start]
    && (forall i | 0 <= i < |found| :: found[i] != [])
    && (forall i {:trigger IsWalk(g, start, found[i])} | 0 <= i < |found| :: IsWalk(g, start, found[i]))
    && (forall i | 0 < i < |found| :: End(found[i]) != start)
    && (forall i {:trigger HasParent(g, found, k, found[i])} | 0 < i < |found| :: HasParent(g, found, k, found[i]))
    && (forall i, j {:trigger Less(found[i], found[j])} | 0 <= i < j < |found| :: Less(found[i], found[j]))
  }

  ghost predicate Reached(found: seq<seq<nat>>, visited: set<nat>)
    requires forall i | 0 <= i < |found| :: found[i] != []
  {
    && (forall i | 0 <= i < |found| :: End(found[i]) in visited)
    && (forall w {:trigger w in visited} | w in visited :: exists i | 0 <= i < |found| :: End(found[i]) == w)
  }

  /** The first k paths have been dequeued: all their successors are known, and none was an undocking goal. */
  ghost predicate Dequeued(g: Graph, cap: nat, found: seq<seq<nat>>, k: nat)
    requires k <= |found| && forall i | 0 <= i < |found| :: found[i] != []
  {
    && (forall j {:trigger Expanded(g, found, j)} | 0 <= j < k && |found[j]| <= cap :: Expanded(g, found, j))
    && (forall j {:trigger Junction(g, End(found[j]))} | 0 < j < k && |found[j]| <= cap :: !Junction(g, End(found[j])))
  }

  /** State of the search between two dequeues. */
  ghost predicate Searching(g: Graph, start: nat, cap: nat, found: seq<seq<nat>>, k: nat, visited: set<nat>) {
    Ordered(g, start, found, k) && Reached(found, visited) && Dequeued(g, cap, found, k)
  }

  /** State of the search while the successors of found[k] are enqueued; rest is still to come. */
  ghost predicate Growing(g: Graph, start: nat, cap: nat, found: seq<seq<nat>>, k: nat, visited: set<nat>, rest: set<nat>) {
    && k < |found| && Ordered(g, start, found, k + 1) && Reached(found, visited) && Dequeued(g, cap, found, k)
    && (forall w | Edge(g, End(found[k]), w) :: w in visited || w in rest)
    && (forall w | w in rest :: Edge(g, End(found[k]), w) && w !in visited)
    && (forall i, w {:trigger found[i], w in rest} |
          k < i < |found| && found[i] == found[k] + [End(found[i])] && w in rest :: End(found[i]) < w)
  }

  predicate IsLeast(m: nat, s: set<nat>) {
    m in s && forall x | x in s :: m <= x
  }

  lemma {:induction false} LeastExists(s: set<nat>)
    requires s != {}
    ensures exists m :: IsLeast(m, s)
  {
    var y :| y in s;
    var rest := s - {y};
    assert s == rest + {y};
    if rest == {} {
      assert IsLeast(y, s);
    } else {
      LeastExists(rest);
      var m :| IsLeast(m, rest);
      assert IsLeast(if m < y then m else y, s);
    }
  }

  /** A successor of found[k] comes after everything found, except through found[k] itself. */
  lemma SuccessorIsLast(g: Graph, start: nat, found: seq<seq<nat>>, k: nat, i: nat, w: nat)
    requires k < |found| && i < |found| && Ordered(g, start, found, k + 1)
    ensures Less(found[i], found[k] + [w]) ||
            (i > k && found[i] == found[k] + [End(found[i])] && End(found[i]) >= w)
  {
    assert i < k ==> Less(found[i], found[k]);
    if i > k {
      assert HasParent(g, found, k + 1, found[i]);
      var j :| 0 <= j <= k && found[i] == found[j] + [End(found[i])];
      assert j < k ==> Less(found[j], found[k]);
      if j < k || End(found[i]) < w {
        AppendStrict(found[j], found[k], End(found[i]), w);
      }
    }
  }

  lemma ExpandedGrows(g: Graph, found: seq<seq<nat>>, p: seq<nat>, j: nat)
    requires j < |found| && found[j] != [] && Expanded(g, found, j)
    ensures Expanded(g, found + [p], j)
  {
    forall w | Edge(g, End(found[j]), w)
      ensures exists i | 0 <= i < |found + [p]| ::
        (found + [p])[i] != [] && End((found + [p])[i]) == w && Leq((found + [p])[i], found[j] + [w])
    {
      var i :| 0 <= i < |found| && found[i] != [] && End(found[i]) == w && Leq(found[i], found[j] + [w]);
      assert (found + [p])[i] == found[i];
    }
  }

  lemma ParentKept(g: Graph, found: seq<seq<nat>>, more: seq<seq<nat>>, k: nat, k': nat, p: seq<nat>)
    requires k <= k' <= |found| + |more| && k <= |found| && HasParent(g, found, k, p)
    ensures HasParent(g, found + more, k', p)
  {
    var j :| 0 <= j < k && found[j] != [] && p == found[j] + [End(p)] && Edge(g, End(found[j]), End(p));
    assert (found + more)[j] == found[j];
  }

  lemma OrderedAdvances(g: Graph, start: nat, found: seq<seq<nat>>, k: nat)
    requires Ordered(g, start, found, k) && k < |found|
    ensures Ordered(g, start, found, k + 1)
  {
    forall i | 0 < i < |found| ensures HasParent(g, found, k + 1, found[i]) {
      ParentKept(g, found, [], k, k + 1, found[i]);
      assert found + [] == found;
    }
  }

  lemma StartGrowing(g: Graph, start: nat, cap: nat, found: seq<seq<nat>>, k: nat, visited: set<nat>, rest: set<nat>)
    requires Searching(g, start, cap, found, k, visited) && k < |found|
    requires forall w :: w in rest <==> Edge(g, End(found[k]), w) && w !in visited
    ensures Growing(g, start, cap, found, k, visited, rest)
  {
    OrderedAdvances(g, start, found, k);
    forall i | k < i < |found| ensures found[i] != found[k] + [End(found[i])] {
      assert HasParent(g, found, k, found[i]);
      var j :| 0 <= j < k && found[i] == found[j] + [End(found[i])];
      assert Less(found[j], found[k]);
      assert found[j] == found[i][..|found[i]| - 1];
    }
  }

  lemma WalkGrows(g: Graph, start: nat, p: seq<nat>, w: nat)
    requires IsWalk(g, start, p) && Edge(g, End(p), w)
    ensures IsWalk(g, start, p + [w])
  {
  }

  lemma SortedGrows(found: seq<seq<nat>>, p: seq<nat>, i: nat, j: nat)
    requires i < j <= |found|
    requires j < |found| ==> Less(found[i], found[j])
    requires j == |found| ==> Less(found[i], p)
    ensures Less((found + [p])[i], (found + [p])[j])
  {
  }

  lemma ParentsGrow(g: Graph, start: nat, found: seq<seq<nat>>, k: nat, w: nat)
    requires k < |found| && Ordered(g, start, found, k + 1)
    requires Edge(g, End(found[k]), w)
    ensures forall i | 0 < i <= |found| :: HasParent(g, found + [found[k] + [w]], k + 1, (found + [found[k] + [w]])[i])
  {
    var p := found[k] + [w];
    forall i | 0 < i <= |found| ensures HasParent(g, found + [p], k + 1, (found + [p])[i]) {
      if i < |found| {
        ParentKept(g, found, [p], k + 1, k + 1, found[i]);
      } else {
        assert (found + [p])[k] == found[k];
      }
    }
  }

  lemma OrderedGrows(g: Graph, start: nat, found: seq<seq<nat>>, k: nat, w: nat)
    requires k < |found| && Ordered(g, start, found, k + 1)
    requires Edge(g, End(found[k]), w) && w != start
    requires forall i | 0 <= i < |found| :: Less(found[i], found[k] + [w])
    ensures Ordered(g, start, found + [found[k] + [w]], k + 1)
  {
    var p := found[k] + [w];
    var found' := found + [p];
    assert IsWalk(g, start, found[k]);
    WalkGrows(g, start, found[k], w);
    forall i | 0 <= i < |found'| ensures IsWalk(g, start, found'[i]) {
      assert i < |found| ==> IsWalk(g, start, found[i]) && found'[i] == found[i];
    }
    forall i, j | 0 <= i < j < |found'| ensures Less(found'[i], found'[j]) {
      SortedGrows(found, p, i, j);
    }
    ParentsGrow(g, start, found, k, w);
  }

  lemma ReachedGrows(found: seq<seq<nat>>, visited: set<nat>, p: seq<nat>)
    requires p != [] && forall i | 0 <= i < |found| :: found[i] != []
    requires Reached(found, visited)
    ensures Reached(found + [p], visited + {End(p)})
  {
    var grown := found + [p];
    assert grown[|found|] == p;
    forall w | w in visited ensures exists i | 0 <= i < |grown| :: End(grown[i]) == w {
      var i :| 0 <= i < |found| && End(found[i]) == w;
      assert grown[i] == found[i];
    }
  }

  lemma DequeuedGrows(g: Graph, cap: nat, found: seq<seq<nat>>, k: nat, p: seq<nat>)
    requires p != [] && k <= |found| && forall i | 0 <= i < |found| :: found[i] != []
    requires Dequeued(g, cap, found, k)
    ensures Dequeued(g, cap, found + [p], k)
  {
    forall j | 0 <= j < k && |found[j]| <= cap ensures Expanded(g, found + [p], j) {
      ExpandedGrows(g, found, p, j);
    }
  }

  /** Enqueueing the least remaining successor keeps the order. */
  lemma Grow(g: Graph, start: nat, cap: nat, found: seq<seq<nat>>, k: nat, visited: set<nat>, rest: set<nat>, next: nat)
    requires Growing(g, start, cap, found, k, visited, rest)
    requires IsLeast(next, rest)
    ensures next !in visited
    ensures Growing(g, start, cap, found + [found[k] + [next]], k, visited + {next}, rest - {next})
  {
    var p := found[k] + [next];
    assert start in visited by {
      assert End(found[0]) == start;
    }
    forall i | 0 <= i < |found| ensures Less(found[i], p) {
      SuccessorIsLast(g, start, found, k, i, next);
    }
    OrderedGrows(g, start, found, k, next);
    ReachedGrows(found, visited, p);
    DequeuedGrows(g, cap, found, k, p);
  }

  lemma FinishGrowing(g: Graph, start: nat, cap: nat, found: seq<seq<nat>>, k: nat, visited: set<nat>)
    requires Growing(g, start, cap, found, k, visited, {})
    requires k == 0 || !Junction(g, End(found[k]))
    ensures Searching(g, start, cap, found, k + 1, visited)
  {
    forall w | Edge(g, End(found[k]), w)
      ensures exists i | 0 <= i < |found| :: found[i] != [] && End(found[i]) == w && Leq(found[i], found[k] + [w])
    {
      var i :| 0 <= i < |found| && End(found[i]) == w;
      SuccessorIsLast(g, start, found, k, i, w);
    }
  }

  /**
   * Whatever walk is taken, either its end was dequeued through a path that is no worse,
   * or something still in the queue is no worse than the walk itself.
   */
  lemma {:induction false} Frontier(g: Graph, start: nat, cap: nat, found: seq<seq<nat>>, k: nat, q: seq<nat>)
    requires k <= |found| && found != [] && found[0] == [start]
    requires forall i | 0 <= i < |found| :: found[i] != []
    requires forall j | 0 <= j < k && |found[j]| <= cap :: Expanded(g, found, j)
    requires IsWalk(g, start, q) && |q| <= cap + 1
    ensures (exists i | 0 <= i < k :: End(found[i]) == End(q) && Leq(found[i], q)) ||
            (exists i | k <= i < |found| :: Leq(found[i], q))
  {
    if |q| == 1 {
      assert q == found[0];
    } else {
      var q' := q[..|q| - 1];
      assert q == q' + [End(q)];
      Frontier(g, start, cap, found, k, q');
      if j :| 0 <= j < k && End(found[j]) == End(q') && Leq(found[j], q') {
        FrontierStep(g, found, j, q', End(q));
      } else {
        var i :| k <= i < |found| && Leq(found[i], q');
        Transitive(found[i], q', q);
      }
    }
  }

  lemma FrontierStep(g: Graph, found: seq<seq<nat>>, j: nat, q: seq<nat>, w: nat)
    requires j < |found| && q != []
    requires forall i | 0 <= i < |found| :: found[i] != []
    requires Expanded(g, found, j)
    requires End(found[j]) == End(q) && Leq(found[j], q) && Edge(g, End(q), w)
    ensures exists i | 0 <= i < |found| :: End(found[i]) == w && Leq(found[i], q + [w])
  {
    var i :| 0 <= i < |found| && End(found[i]) == w && Leq(found[i], found[j] + [w]);
    if found[j] != q {
      AppendStrict(found[j], q, w, w);
    }
    Transitive(found[i], found[j] + [w], q + [w]);
  }

  /** A walk to a junction within the cap does not end where the search has already looked. */
  lemma JunctionAhead(g: Graph, start: nat, cap: nat, found: seq<seq<nat>>, k: nat, visited: set<nat>, q: seq<nat>)
    requires Searching(g, start, cap, found, k, visited)
    requires IsUndockWalk(g, start, cap, q)
    ensures exists i | k <= i < |found| :: Leq(found[i], q)
  {
    Frontier(g, start, cap, found, k, q);
    forall i | 0 <= i < k && Leq(found[i], q) ensures End(found[i]) != End(q) {
      assert |found[i]| <= cap;
    }
  }

  lemma FrontIsLeast(g: Graph, start: nat, cap: nat, found: seq<seq<nat>>, k: nat, visited: set<nat>, q: seq<nat>)
    requires Searching(g, start, cap, found, k, visited) && k < |found|
    requires IsUndockWalk(g, start, cap, q)
    ensures Leq(found[k], q)
  {
    JunctionAhead(g, start, cap, found, k, visited, q);
    var i :| k <= i < |found| && Leq(found[i], q);
    Transitive(found[k], found[i], q);
  }

  /** The queue, as the code holds it, is what was found and not yet dequeued. */
  ghost predicate QueueIs(queue: seq<Entry>, found: seq<seq<nat>>, k: nat)
  {
    && k + |queue| == |found|
    && forall i {:trigger queue[i]} | 0 <= i < |queue| :: found[k + i] != [] && queue[i] == EntryOf(found[k + i])
  }

  lemma Start(g: Graph, start: nat, cap: nat)
    ensures Searching(g, start, cap, [[start]], 0, {start})
  {
  }

  lemma OnlyStartIsShallow(g: Graph, start: nat, found: seq<seq<nat>>, k: nat)
    requires Ordered(g, start, found, k) && k < |found|
    ensures |found[k]| == 1 ==> k == 0
  {
    if k > 0 {
      assert HasParent(g, found, k, found[k]);
    }
  }

  lemma DropDeep(g: Graph, start: nat, cap: nat, found: seq<seq<nat>>, k: nat, visited: set<nat>)
    requires Searching(g, start, cap, found, k, visited) && k < |found| && |found[k]| > cap
    ensures Searching(g, start, cap, found, k + 1, visited)
  {
    OrderedAdvances(g, start, found, k);
  }

  lemma JunctionIsBest(g: Graph, start: nat, cap: nat, found: seq<seq<nat>>, k: nat, visited: set<nat>)
    requires Searching(g, start, cap, found, k, visited)
    requires k < |found| && 1 < |found[k]| <= cap && Junction(g, End(found[k]))
    ensures IsBestUndockWalk(g, start, cap, found[k])
  {
    forall q | IsUndockWalk(g, start, cap, q) ensures Leq(found[k], q) {
      FrontIsLeast(g, start, cap, found, k, visited, q);
    }
  }

  lemma ExhaustedMeansNone(g: Graph, start: nat, cap: nat, found: seq<seq<nat>>, visited: set<nat>)
    requires Searching(g, start, cap, found, |found|, visited)
    ensures forall q :: !IsUndockWalk(g, start, cap, q)
  {
    forall q ensures !IsUndockWalk(g, start, cap, q) {
      if IsUndockWalk(g, start, cap, q) {
        JunctionAhead(g, start, cap, found, |found|, visited, q);
        assert false;
      }
    }
  }

  /** p continued by each of the given waypoints in turn. */
  ghost function Extensions(p: seq<nat>, order: seq<nat>): (r: seq<seq<nat>>)
    ensures |r| == |order| && forall i | 0 <= i < |r| :: r[i] == p + [order[i]]
  {
    seq(|order|, i requires 0 <= i < |order| => p + [order[i]])
  }

  ghost function Elements(order: seq<nat>): set<nat> {
    set w | w in order
  }

  lemma ElementsGrow(order: seq<nat>, next: nat)
    ensures Elements(order + [next]) == Elements(order) + {next}
    ensures Elements([next] + order) == Elements(order) + {next}
  {
  }

  ghost predicate Increasing(order: seq<nat>) {
    forall i, j | 0 <= i < j < |order| :: order[i] < order[j]
  }

  /** queue is queue0 followed by one entry for p continued by each waypoint of order. */
  ghost predicate Enqueued(queue0: seq<Entry>, queue: seq<Entry>, p: seq<nat>, order: seq<nat>)
  {
    && |queue| == |queue0| + |order|
    && queue[..|queue0|] == queue0
    && forall i | 0 <= i < |order| :: queue[|queue0| + i] == EntryOf(p + [order[i]])
  }

  /** Enqueue every destination, in increasing order of waypoint index. */
  method EnqueueDestinations(front: Entry, destinations: set<nat>, queue0: seq<Entry>, visited0: set<nat>)
    returns (queue: seq<Entry>, visited: set<nat>, ghost order: seq<nat>)
    requires front.path != [] && front == EntryOf(front.path)
    ensures Increasing(order) && Elements(order) == destinations
    ensures visited == visited0 + destinations
    ensures Enqueued(queue0, queue, front.path, order)
  {
    queue, visited, order := queue0, visited0, [];
    var rest := destinations;
    while rest != {}
      invariant Increasing(order) && Elements(order) + rest == destinations
      invariant forall i, w | 0 <= i < |order| && w in rest :: order[i] < w
      invariant visited == visited0 + Elements(order)
      invariant Enqueued(queue0, queue, front.path, order)
      decreases rest
    {
      LeastExists(rest);
      var next :| next in rest && IsLeast(next, rest);
      visited := visited + {next};
      queue := queue + [Entry(next, front.depth + 1, front.path + [next])];
      ElementsGrow(order, next);
      order := order + [next];
      rest := rest - {next};
    }
  }

  lemma IncreasingHead(next: nat, rest: seq<nat>)
    requires Increasing([next] + rest)
    ensures Increasing(rest)
    ensures IsLeast(next, Elements([next] + rest))
    ensures Elements([next] + rest) - {next} == Elements(rest)
  {
    var order := [next] + rest;
    assert forall i | 0 <= i < |rest| :: order[1..][i] == rest[i];
    forall i | 0 <= i < |rest| ensures next < rest[i] {
      assert order[0] < order[i + 1];
    }
    ElementsGrow(rest, next);
  }

  lemma GrowFirst(g: Graph, start: nat, cap: nat, found: seq<seq<nat>>, k: nat, visited: set<nat>, next: nat, rest: seq<nat>)
    requires Growing(g, start, cap, found, k, visited, Elements([next] + rest)) && Increasing([next] + rest)
    ensures Growing(g, start, cap, found + [found[k] + [next]], k, visited + {next}, Elements(rest))
    ensures Increasing(rest)
  {
    IncreasingHead(next, rest);
    Grow(g, start, cap, found, k, visited, Elements([next] + rest), next);
  }

  lemma ExtensionsGrow(found: seq<seq<nat>>, p: seq<nat>, visited: set<nat>, next: nat, rest: seq<nat>)
    ensures found + [p + [next]] + Extensions(p, rest) == found + Extensions(p, [next] + rest)
    ensures visited + {next} + Elements(rest) == visited + Elements([next] + rest)
  {
    ElementsGrow(rest, next);
  }

  lemma {:induction false} GrowAll(g: Graph, start: nat, cap: nat, found: seq<seq<nat>>, k: nat, visited: set<nat>, order: seq<nat>)
    requires Growing(g, start, cap, found, k, visited, Elements(order)) && Increasing(order)
    ensures Growing(g, start, cap, found + Extensions(found[k], order), k, visited + Elements(order), {})
    decreases order
  {
    var p := found[k];
    if order == [] {
      assert found + Extensions(p, order) == found && visited + Elements(order) == visited && Elements(order) == {};
    } else {
      var next, rest := order[0], order[1..];
      assert order == [next] + rest;
      GrowFirst(g, start, cap, found, k, visited, next, rest);
      var found', visited' := found + [p + [next]], visited + {next};
      assert found'[k] == p;
      GrowAll(g, start, cap, found', k, visited', rest);
      ExtensionsGrow(found, p, visited, next, rest);
    }
  }

  lemma QueueExtends(queue0: seq<Entry>, queue: seq<Entry>, found: seq<seq<nat>>, k: nat, p: seq<nat>, order: seq<nat>)
    requires QueueIs(queue0, found, k) && p != []
    requires Enqueued(queue0, queue, p, order)
    ensures QueueIs(queue, found + Extensions(p, order), k)
  {
    var found' := found + Extensions(p, order);
    forall i | 0 <= i < |queue| ensures found'[k + i] != [] && queue[i] == EntryOf(found'[k + i]) {
      if i < |queue0| {
        assert queue[i] == queue[..|queue0|][i];
      } else {
        assert queue[i] == queue[|queue0| + (i - |queue0|)];
      }
    }
  }

  /** One dequeue that enqueues all its destinations, seen as a step of the search. */
  lemma ExpandFront(g: Graph, start: nat, cap: nat, found: seq<seq<nat>>, k: nat, visited: set<nat>, order: seq<nat>)
    requires Searching(g, start, cap, found, k, visited) && k < |found|
    requires k == 0 || !Junction(g, End(found[k]))
    requires forall w :: w in Elements(order) <==> Edge(g, End(found[k]), w) && w !in visited
    requires Increasing(order)
    ensures Searching(g, start, cap, found + Extensions(found[k], order), k + 1, visited + Elements(order))
  {
    StartGrowing(g, start, cap, found, k, visited, Elements(order));
    GrowAll(g, start, cap, found, k, visited, order);
    var found' := found + Extensions(found[k], order);
    assert found'[k] == found[k];
    FinishGrowing(g, start, cap, found', k, visited + Elements(order));
  }

  /** How many waypoints the search can still enqueue. */
  ghost function Unvisited(g: Graph, visited: set<nat>): nat {
    |Exits(g) - visited|
  }

  lemma SubsetIsSmaller(a: set<nat>, b: set<nat>)
    requires a < b
    ensures |a| < |b|
  {
    assert b == a + (b - a);
    assert b - a != {};
  }

  lemma FewerUnvisited(g: Graph, visited: set<nat>, order: seq<nat>)
    requires Elements(order) <= Exits(g) && Elements(order) !! visited
    ensures order == [] ==> Unvisited(g, visited + Elements(order)) == Unvisited(g, visited)
    ensures order != [] ==> Unvisited(g, visited + Elements(order)) < Unvisited(g, visited)
  {
    if order == [] {
      assert visited + Elements(order) == visited;
    } else {
      assert order[0] in Exits(g) - visited && order[0] !in Exits(g) - (visited + Elements(order));
      SubsetIsSmaller(Exits(g) - (visited + Elements(order)), Exits(g) - visited);
    }
  }

  /** The queue, the visited set and the history of the search agree. */
  ghost predicate Invariant(g: Graph, start: nat, cap: nat, queue: seq<Entry>, visited: set<nat>, found: seq<seq<nat>>, k: nat) {
    Searching(g, start, cap, found, k, visited) && QueueIs(queue, found, k)
  }

  lemma FrontOf(queue: seq<Entry>, found: seq<seq<nat>>, k: nat)
    requires QueueIs(queue, found, k) && queue != []
    ensures k < |found| && found[k] != [] && queue[0] == EntryOf(found[k])
    ensures QueueIs(queue[1..], found, k + 1)
  {
    assert queue[0].path != [];
  }

  lemma SkipStep(g: Graph, start: nat, cap: nat, queue: seq<Entry>, visited: set<nat>, found: seq<seq<nat>>, k: nat)
    requires Invariant(g, start, cap, queue, visited, found, k) && queue != [] && queue[0].depth >= cap
    ensures Invariant(g, start, cap, queue[1..], visited, found, k + 1)
  {
    FrontOf(queue, found, k);
    DropDeep(g, start, cap, found, k, visited);
  }

  lemma ReturnStep(g: Graph, start: nat, cap: nat, queue: seq<Entry>, visited: set<nat>, found: seq<seq<nat>>, k: nat)
    requires Invariant(g, start, cap, queue, visited, found, k) && queue != []
    requires 0 < queue[0].depth < cap && Junction(g, queue[0].wp)
    ensures IsBestUndockWalk(g, start, cap, queue[0].path)
  {
    FrontOf(queue, found, k);
    JunctionIsBest(g, start, cap, found, k, visited);
  }

  lemma ExpandStep(g: Graph, start: nat, cap: nat, queue: seq<Entry>, visited: set<nat>, found: seq<seq<nat>>, k: nat,
                   queue': seq<Entry>, visited': set<nat>, found': seq<seq<nat>>, order: seq<nat>)
    requires Invariant(g, start, cap, queue, visited, found, k) && queue != [] && queue[0].path != []
    requires queue[0].depth == 0 || !Junction(g, queue[0].wp)
    requires forall w :: w in Elements(order) <==> Edge(g, queue[0].wp, w) && w !in visited
    requires Increasing(order)
    requires Enqueued(queue[1..], queue', queue[0].path, order)
    requires visited' == visited + Elements(order) && found' == found + Extensions(queue[0].path, order)
    ensures Invariant(g, start, cap, queue', visited', found', k + 1)
  {
    FrontOf(queue, found, k);
    OnlyStartIsShallow(g, start, found, k);
    ExpandFront(g, start, cap, found, k, visited, order);
    QueueExtends(queue[1..], queue', found, k + 1, found[k], order);
  }

  /**
   * The search. It terminates on every graph, returns the best way out if there is one,
   * and the empty path exactly when there is none.
   */
  method GenerateUndockPath(g: Graph, start: nat, maxDepth: nat) returns (path: seq<nat>)
    ensures path != [] ==> IsBestUndockWalk(g, start, maxDepth, path)
    ensures path == [] ==> forall q :: !IsUndockWalk(g, start, maxDepth, q)
  {
    var queue := [Entry(start, 0, [start])];
    var visited := {start};
    ghost var found, k := [[start]], 0;
    Start(g, start, maxDepth);
    while queue != []
      invariant Invariant(g, start, maxDepth, queue, visited, found, k)
      decreases Unvisited(g, visited), |queue|
    {
      ghost var queue0, visited0, order := queue, visited, [];
      FrontOf(queue, found, k);
      var front := queue[0];
      queue := queue[1..];
      if front.depth >= maxDepth {
        SkipStep(g, start, maxDepth, queue0, visited, found, k);
        k := k + 1;
        continue;
      }
      var neighbors := DistinctNeighbors(g, front.wp);
      if front.depth > 0 && |neighbors| >= 3 {
        ReturnStep(g, start, maxDepth, queue0, visited, found, k);
        return front.path;
      }
      var destinations := UnvisitedDestinations(g, front.wp, visited);
      queue, visited, order := EnqueueDestinations(front, destinations, queue, visited);
      ghost var found0 := found;
      found := found + Extensions(front.path, order);
      ExpandStep(g, start, maxDepth, queue0, visited0, found0, k, queue, visited, found, order);
      FewerUnvisited(g, visited0, order);
      k := k + 1;
    }
    ExhaustedMeansNone(g, start, maxDepth, found, visited);
    return [];
  }

  // ----- what the returned path promises -----

  /** The search has one possible answer: the result does not depend on how lanes are numbered. */
  lemma BestIsUnique(g: Graph, start: nat, cap: nat, p: seq<nat>, q: seq<nat>)
    requires IsBestUndockWalk(g, start, cap, p) && IsBestUndockWalk(g, start, cap, q)
    ensures p == q
  {
    Antisymmetric(p, q);
  }

  /** No waypoint is visited twice. */
  lemma BestIsSimple(g: Graph, start: nat, cap: nat, p: seq<nat>, i: nat, j: nat)
    requires IsBestUndockWalk(g, start, cap, p)
    requires i < j < |p|
    ensures p[i] != p[j]
  {
    if p[i] == p[j] {
      var q := p[..i] + p[j..];
      forall m | 0 < m < |q| ensures Edge(g, q[m - 1], q[m]) {
        if m < i {
          assert Edge(g, p[m - 1], p[m]);
        } else if m == i {
          assert Edge(g, p[i - 1], p[i]);
        } else {
          var n := m - i + j;
          assert Edge(g, p[n - 1], p[n]);
        }
      }
      assert IsUndockWalk(g, start, cap, q);
      assert false;
    }
  }

  /** No waypoint between the first and the last is a junction. */
  lemma InteriorIsPlain(g: Graph, start: nat, cap: nat, p: seq<nat>, i: nat)
    requires IsBestUndockWalk(g, start, cap, p)
    requires 0 < i < |p| - 1
    ensures !Junction(g, p[i])
  {
    BestIsSimple(g, start, cap, p, 0, i);
    var q := p[..i + 1];
    assert IsUndockWalk(g, start, cap, q) ==> Leq(p, q);
  }

  /** The walk ends at a nearest junction: it is as long as the distance, and no other junction is nearer. */
  lemma BestIsNearest(g: Graph, start: nat, cap: nat, p: seq<nat>, j: nat, d: nat)
    requires IsBestUndockWalk(g, start, cap, p)
    ensures AtDistance(g, start, End(p), |p| - 1)
    ensures 1 <= d < cap && Junction(g, j) && AtDistance(g, start, j, d) ==> |p| - 1 <= d
  {
    forall q | IsWalk(g, start, q) && End(q) == End(p) ensures |q| >= |p| {
      assert 2 <= |q| <= cap ==> IsUndockWalk(g, start, cap, q) && Leq(p, q);
    }
    if 1 <= d < cap && Junction(g, j) && AtDistance(g, start, j, d) {
      var q :| IsWalk(g, start, q) && End(q) == j && |q| == d + 1;
      ZeroIsStart(g, start, j, d);
      assert IsUndockWalk(g, start, cap, q);
    }
  }

  lemma ZeroIsStart(g: Graph, start: nat, j: nat, d: nat)
    requires AtDistance(g, start, j, d)
    ensures d == 0 <==> j == start
  {
    assert IsWalk(g, start, [start]) && End([start]) == start;
    var q :| IsWalk(g, start, q) && End(q) == j && |q| == d + 1;
  }

  /** Some walk to j is as short as q or shorter and is as long as the distance of j. */
  lemma {:induction false} DistanceOf(g: Graph, start: nat, q: seq<nat>) returns (d: nat)
    requires IsWalk(g, start, q)
    ensures d < |q| && AtDistance(g, start, End(q), d)
    decreases |q|
  {
    if p :| IsWalk(g, start, p) && End(p) == End(q) && |p| < |q| {
      d := DistanceOf(g, start, p);
    } else {
      d := |q| - 1;
    }
  }

  /** There is a way out exactly when some junction lies at a directed distance from 1 to cap - 1. */
  lemma WayOutExists(g: Graph, start: nat, cap: nat)
    ensures (exists p :: IsUndockWalk(g, start, cap, p)) <==>
            (exists j, d :: 1 <= d < cap && Junction(g, j) && AtDistance(g, start, j, d))
  {
    if p :| IsUndockWalk(g, start, cap, p) {
      var d := DistanceOf(g, start, p);
      ZeroIsStart(g, start, End(p), d);
      assert Junction(g, End(p)) && AtDistance(g, start, End(p), d);
    }
    if j, d :| 1 <= d < cap && Junction(g, j) && AtDistance(g, start, j, d) {
      var q :| IsWalk(g, start, q) && End(q) == j && |q| == d + 1;
      ZeroIsStart(g, start, j, d);
      assert IsUndockWalk(g, start, cap, q);
    }
  }
}
