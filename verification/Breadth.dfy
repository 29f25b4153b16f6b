/** The frontier search of clientcore/src/minimap.cpp: when the goal is not reachable in known
    terrain, which known field is the best to walk to, and why the search finds it. */
module Breadth {
  import opened World
  import opened Routes
  import opened AStar

  // ---- what is being looked for -----------------------------------------------------------

  /** `at` is known and its neighbour `p` is a valid field nobody has seen. `seen` holds the
      known and the blocked fields. */
  predicate Edge(seen: set<MapPosition>, at: MapPosition, p: MapPosition) {
    Adjacent(at, p) && ValidPosition(p) && p !in seen
  }

  predicate NotWorse(distance: nat, cost: nat, otherDistance: nat, otherCost: nat) {
    distance < otherDistance || (distance == otherDistance && cost <= otherCost)
  }

  /** A shortest route to a field next to the unknown, other than the start, that brings us as
      near to the goal as any such field can, and among those is as short as any. */
  ghost predicate BestSegment(
      open: set<MapPosition>, seen: set<MapPosition>, start: MapPosition, goal: MapPosition, path: seq<MapPosition>)
  {
    var at := EndOf(start, path);
    at != start && Shortest(open, start, at, path)
    && exists p :: Edge(seen, at, p) && NoneBetter(open, seen, start, goal, Distance(p, goal), |path|)
  }

  ghost predicate NoneBetter(
      open: set<MapPosition>, seen: set<MapPosition>, start: MapPosition, goal: MapPosition, distance: nat, cost: nat)
  {
    forall way, other, p :: Leads(open, start, way, other) && other != start && Edge(seen, other, p)
      ==> NotWorse(distance, cost, Distance(p, goal), |way|)
  }

  ghost predicate HasFrontier(open: set<MapPosition>, seen: set<MapPosition>, start: MapPosition) {
    exists at, p :: at != start && Reachable(open, start, at) && Edge(seen, at, p)
  }

  // ---- the invariant ------------------------------------------------------------------------

  /** Breadth first: the queue lists the visited fields once each, by cost, and from field `i`
      on they cost at most one more than field `i`. */
  ghost predicate Level(start: MapPosition, visited: Visits, queue: seq<MapPosition>, i: nat) {
    && (forall p :: p in visited <==> p in queue)
    && (forall j, k :: 0 <= j < k < |queue| ==> queue[j] != queue[k])
    && (forall j, k :: 0 <= j < k < |queue| ==> visited[queue[j]].cost <= visited[queue[k]].cost)
    && (forall k :: 0 <= k < |queue| && i < |queue| ==> visited[queue[k]].cost <= visited[queue[i]].cost + 1)
  }

  ghost predicate Spread(open: set<MapPosition>, visited: Visits, queue: seq<MapPosition>, i: nat) {
    i <= |queue| && forall j :: 0 <= j < i ==> queue[j] in visited && Relaxed(open, visited, queue[j], 4)
  }

  /** The first `n` neighbours of field `i`, and all those of the fields before it, have been
      compared with the best. */
  datatype Best = Best(found: bool, frontier: MapPosition, distance: nat, cost: nat)

  ghost predicate Compared(
      seen: set<MapPosition>, start: MapPosition, goal: MapPosition, visited: Visits, queue: seq<MapPosition>, i: nat,
      n: nat, best: Best)
  {
    forall j, m :: 0 <= j < |queue| && 0 <= m < 4 && (j < i || (j == i && m < n))
      && queue[j] in visited && queue[j] != start && Edge(seen, queue[j], Neighbours(queue[j])[m])
      ==> best.found && NotWorse(best.distance, best.cost, Distance(Neighbours(queue[j])[m], goal),
        visited[queue[j]].cost)
  }

  ghost predicate Attained(seen: set<MapPosition>, start: MapPosition, goal: MapPosition, visited: Visits, best: Best) {
    best.found ==>
      && best.frontier in visited && best.frontier != start && visited[best.frontier].cost == best.cost
      && exists p :: Edge(seen, best.frontier, p) && Distance(p, goal) == best.distance
  }

  lemma LevelStarts(start: MapPosition)
    ensures Level(start, map[start := Record(0, start)], [start], 0)
  {
  }

  lemma LevelGrows(start: MapPosition, visited: Visits, queue: seq<MapPosition>, i: nat, p: MapPosition)
    requires Level(start, visited, queue, i) && i < |queue| && p !in visited
    ensures Level(start, visited[p := Record(visited[queue[i]].cost + 1, queue[i])], queue + [p], i)
  {
    var at := queue[i];
    var visited' := visited[p := Record(visited[at].cost + 1, at)];
    var queue' := queue + [p];
    assert forall j :: 0 <= j < |queue| ==> queue'[j] == queue[j] && queue[j] in queue && queue[j] != p;
    assert queue'[|queue|] == p;
  }

  lemma LevelAdvances(start: MapPosition, visited: Visits, queue: seq<MapPosition>, i: nat)
    requires Level(start, visited, queue, i) && i < |queue|
    ensures Level(start, visited, queue, i + 1)
  {
    assert forall k :: 0 <= k < |queue| ==> queue[k] in queue;
  }

  lemma VisitIsRelaxed(start: MapPosition, visited: Visits, queue: seq<MapPosition>, i: nat, p: MapPosition)
    requires Level(start, visited, queue, i) && i < |queue| && p in visited
    ensures queue[i] in visited && visited[p].cost <= visited[queue[i]].cost + 1
  {
    assert queue[i] in queue;
  }

  /** When the queue is used up, every visited cost is least and everything reachable was
      visited. */
  lemma {:induction false} SpreadIsOptimal(
      open: set<MapPosition>, start: MapPosition, visited: Visits, queue: seq<MapPosition>,
      routes: map<MapPosition, seq<MapPosition>>, path: seq<MapPosition>)
    requires Recorded(open, start, visited, routes) && Level(start, visited, queue, |queue|)
    requires Spread(open, visited, queue, |queue|)
    requires Route(open, start, path)
    ensures EndOf(start, path) in visited && visited[EndOf(start, path)].cost <= |path|
    decreases |path|
  {
    hide Recorded, Relaxed, Route, Adjacent, Neighbours;
    if path == [] {
      StartIsRecorded(open, start, visited, routes);
    } else {
      Shorten(open, start, path);
      var before := path[..|path| - 1];
      SpreadIsOptimal(open, start, visited, queue, routes, before);
      var c := EndOf(start, before);
      var j :| 0 <= j < |queue| && queue[j] == c;
      LastStepRelaxed(open, start, visited, path, c);
    }
  }

  lemma StartIsRecorded(
      open: set<MapPosition>, start: MapPosition, visited: Visits, routes: map<MapPosition, seq<MapPosition>>)
    requires Recorded(open, start, visited, routes)
    ensures start in visited && visited[start].cost == 0
  {
  }

  lemma LastStepRelaxed(
      open: set<MapPosition>, start: MapPosition, visited: Visits, path: seq<MapPosition>, c: MapPosition)
    requires path != [] && Route(open, start, path) && c == Stop(start, path, |path| - 1)
    requires c in visited && Relaxed(open, visited, c, 4)
    ensures EndOf(start, path) in visited && visited[EndOf(start, path)].cost <= visited[c].cost + 1
  {
    var last := path[|path| - 1];
    NeighboursAreAdjacent(c, last);
    var i :| 0 <= i < 4 && Neighbours(c)[i] == last;
  }

  /** What the exhausted search has found. */
  lemma ExhaustedIsBest(
      open: set<MapPosition>, seen: set<MapPosition>, start: MapPosition, goal: MapPosition, visited: Visits,
      queue: seq<MapPosition>, routes: map<MapPosition, seq<MapPosition>>, best: Best)
    requires Recorded(open, start, visited, routes) && Level(start, visited, queue, |queue|)
    requires Spread(open, visited, queue, |queue|)
    requires Compared(seen, start, goal, visited, queue, |queue|, 0, best) && Attained(seen, start, goal, visited, best)
    ensures best.found <==> HasFrontier(open, seen, start)
    ensures best.found ==> NoneBetter(open, seen, start, goal, best.distance, best.cost)
  {
    hide Spread, Relaxed, Leads, Edge, Distance, Recorded;
    forall way, other, p | Leads(open, start, way, other) && other != start && Edge(seen, other, p)
      ensures best.found && NotWorse(best.distance, best.cost, Distance(p, goal), |way|)
    {
      VisitedAtLeast(open, start, visited, queue, routes, way, other);
      EdgeIsNeighbour(seen, other, p);
      var j :| 0 <= j < |queue| && queue[j] == other;
      var m :| 0 <= m < 4 && Neighbours(other)[m] == p;
      assert Edge(seen, queue[j], Neighbours(queue[j])[m]);
    }
    if best.found {
      FrontierExists(open, seen, start, goal, visited, routes, best);
    }
    if HasFrontier(open, seen, start) {
      var at, p :| at != start && Reachable(open, start, at) && Edge(seen, at, p);
      var way :| Leads(open, start, way, at);
    }
  }

  lemma VisitedAtLeast(
      open: set<MapPosition>, start: MapPosition, visited: Visits, queue: seq<MapPosition>,
      routes: map<MapPosition, seq<MapPosition>>, way: seq<MapPosition>, p: MapPosition)
    requires Recorded(open, start, visited, routes) && Level(start, visited, queue, |queue|)
    requires Spread(open, visited, queue, |queue|)
    requires Leads(open, start, way, p)
    ensures p in visited && visited[p].cost <= |way|
  {
    hide Recorded, Level, Spread, Route;
    SpreadIsOptimal(open, start, visited, queue, routes, way);
  }

  lemma EdgeIsNeighbour(seen: set<MapPosition>, at: MapPosition, p: MapPosition)
    requires Edge(seen, at, p)
    ensures exists m :: 0 <= m < 4 && Neighbours(at)[m] == p
  {
    NeighboursAreAdjacent(at, p);
  }

  lemma FrontierExists(
      open: set<MapPosition>, seen: set<MapPosition>, start: MapPosition, goal: MapPosition, visited: Visits,
      routes: map<MapPosition, seq<MapPosition>>, best: Best)
    requires Recorded(open, start, visited, routes) && Attained(seen, start, goal, visited, best) && best.found
    ensures HasFrontier(open, seen, start)
  {
    hide Leads, Edge;
    assert Leads(open, start, routes[best.frontier], best.frontier);
  }

  /** Looking at one neighbour of the field in hand. */
  function Consider(
      seen: set<MapPosition>, start: MapPosition, goal: MapPosition, at: MapPosition, cost: nat, p: MapPosition,
      best: Best): Best
  {
    if ValidPosition(p) && at != start && p !in seen
       && (!best.found || Distance(p, goal) < best.distance || (Distance(p, goal) == best.distance && cost < best.cost))
    then Best(true, at, Distance(p, goal), cost) else best
  }

  lemma ConsiderCompares(
      seen: set<MapPosition>, start: MapPosition, goal: MapPosition, visited: Visits, queue: seq<MapPosition>, i: nat,
      n: nat, best: Best)
    requires i < |queue| && n < 4 && queue[i] in visited
    requires Compared(seen, start, goal, visited, queue, i, n, best) && Attained(seen, start, goal, visited, best)
    ensures var after := Consider(seen, start, goal, queue[i], visited[queue[i]].cost, Neighbours(queue[i])[n], best);
      Compared(seen, start, goal, visited, queue, i, n + 1, after) && Attained(seen, start, goal, visited, after)
  {
    hide Distance, Adjacent, Neighbours;
    NeighboursAreAdjacent(queue[i], Neighbours(queue[i])[n]);
    assert Neighbours(queue[i])[n] in Neighbours(queue[i]);
  }

  lemma ComparedGrows(
      seen: set<MapPosition>, start: MapPosition, goal: MapPosition, visited: Visits, queue: seq<MapPosition>, i: nat,
      n: nat, best: Best, p: MapPosition, cost: nat, at: MapPosition)
    requires Compared(seen, start, goal, visited, queue, i, n, best) && Attained(seen, start, goal, visited, best)
    requires i < |queue| && p !in visited && forall j :: 0 <= j < |queue| ==> queue[j] in visited
    ensures Compared(seen, start, goal, visited[p := Record(cost, at)], queue + [p], i, n, best)
    ensures Attained(seen, start, goal, visited[p := Record(cost, at)], best)
  {
    hide Distance, Adjacent, Neighbours, Edge;
    assert forall j :: 0 <= j < |queue| ==> (queue + [p])[j] == queue[j];
  }

  lemma ComparedAdvances(
      seen: set<MapPosition>, start: MapPosition, goal: MapPosition, visited: Visits, queue: seq<MapPosition>, i: nat,
      best: Best)
    requires Compared(seen, start, goal, visited, queue, i, 4, best)
    ensures Compared(seen, start, goal, visited, queue, i + 1, 0, best)
  {
    hide Distance, Neighbours, Edge;
  }

  lemma SpreadGrows(
      open: set<MapPosition>, visited: Visits, queue: seq<MapPosition>, i: nat, p: MapPosition, cost: nat,
      at: MapPosition, n: nat)
    requires Spread(open, visited, queue, i) && p !in visited
    requires at in visited && n <= 4 && Relaxed(open, visited, at, n)
    ensures Spread(open, visited[p := Record(cost, at)], queue + [p], i)
    ensures Relaxed(open, visited[p := Record(cost, at)], at, n)
  {
    hide Neighbours;
    assert forall j :: 0 <= j < |queue| ==> (queue + [p])[j] == queue[j];
  }

  lemma RecordedGrows(
      open: set<MapPosition>, start: MapPosition, visited: Visits, routes: map<MapPosition, seq<MapPosition>>,
      at: MapPosition, p: MapPosition)
    requires Recorded(open, start, visited, routes) && Parented(start, visited, visited.Keys)
    requires at in visited && p !in visited && p in open && Adjacent(at, p)
    ensures var visited' := visited[p := Record(visited[at].cost + 1, at)];
      at in routes && Recorded(open, start, visited', routes[p := routes[at] + [p]])
      && Parented(start, visited', visited'.Keys)
  {
    hide Leads, Adjacent;
    Reaches(open, start, routes[at], at, p);
  }
}
