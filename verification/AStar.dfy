/** Why the A* search of clientcore/src/minimap.cpp is complete and optimal: the invariant of
    its loop, and what each of its steps does to it. */
module AStar {
  import opened World
  import opened Routes

  datatype Entry = Entry(position: MapPosition, cost: nat, estimate: nat)

  datatype Record = Record(cost: nat, parent: MapPosition)

  /** The comparator of the priority queue: `a` is served after `b`. */
  predicate After(a: Entry, b: Entry) {
    if a.estimate != b.estimate then a.estimate > b.estimate
    else if a.cost != b.cost then a.cost < b.cost
    else Before(b.position, a.position)
  }

  predicate Top(frontier: set<Entry>, e: Entry) {
    e in frontier && forall other :: other in frontier ==> !After(e, other)
  }

  lemma AfterIsOrder(a: Entry, b: Entry, c: Entry)
    ensures !After(a, b) || !After(b, a)
    ensures !After(a, b) && !After(b, c) ==> !After(a, c)
  {
  }

  lemma {:induction false} TopExists(frontier: set<Entry>)
    requires frontier != {}
    ensures exists e :: Top(frontier, e)
    decreases |frontier|
  {
    hide After;
    var e :| e in frontier;
    var rest := frontier - {e};
    AfterIsOrder(e, e, e);
    if rest == {} {
      assert frontier == {e};
      assert Top(frontier, e);
    } else {
      TopExists(rest);
      var best :| Top(rest, best);
      var top := if After(e, best) then best else e;
      forall other | other in frontier ensures !After(top, other) {
        assert other == e || other in rest;
        AfterIsOrder(e, best, other);
      }
      assert Top(frontier, top);
    }
  }

  /** The search at some moment. `closed` are the fields expanded so far and `routes` how each
      visited field was reached; the program itself keeps only `visited` and `frontier`. */
  datatype Search = Search(
    visited: map<MapPosition, Record>, frontier: set<Entry>, closed: set<MapPosition>,
    routes: map<MapPosition, seq<MapPosition>>)

  function EntryFor(p: MapPosition, cost: nat, goal: MapPosition): Entry {
    Entry(p, cost, cost + Distance(p, goal))
  }

  ghost predicate Optimal(open: set<MapPosition>, start: MapPosition, p: MapPosition, cost: nat) {
    forall path :: Leads(open, start, path, p) ==> cost <= |path|
  }

  type Visits = map<MapPosition, Record>

  ghost predicate Recorded(
      open: set<MapPosition>, start: MapPosition, visited: Visits, routes: map<MapPosition, seq<MapPosition>>)
  {
    && start in visited && visited[start].cost == 0
    && visited.Keys == routes.Keys
    && forall p :: p in visited ==>
         p in open + {start} && Leads(open, start, routes[p], p) && |routes[p]| == visited[p].cost
  }

  ghost predicate Parented(start: MapPosition, visited: Visits, closed: set<MapPosition>) {
    forall p :: p in visited && p != start ==>
      && visited[p].parent in closed && visited[p].parent in visited
      && Adjacent(visited[p].parent, p) && visited[visited[p].parent].cost + 1 == visited[p].cost
  }

  ghost predicate Queued(goal: MapPosition, visited: Visits, frontier: set<Entry>, closed: set<MapPosition>) {
    && (forall p :: p in visited && p !in closed ==> EntryFor(p, visited[p].cost, goal) in frontier)
    && (forall e :: e in frontier ==>
         && e.position in visited && e == EntryFor(e.position, e.cost, goal)
         && visited[e.position].cost <= e.cost
         && (e.position in closed ==> visited[e.position].cost < e.cost))
  }

  ghost predicate Settled(open: set<MapPosition>, start: MapPosition, visited: Visits, closed: set<MapPosition>) {
    forall c :: c in closed ==> c in visited && Optimal(open, start, c, visited[c].cost)
  }

  ghost predicate Invariant(open: set<MapPosition>, start: MapPosition, goal: MapPosition, s: Search) {
    && Recorded(open, start, s.visited, s.routes) && Parented(start, s.visited, s.closed)
    && Queued(goal, s.visited, s.frontier, s.closed) && Settled(open, start, s.visited, s.closed)
  }

  /** The first `n` neighbours of `c` have been looked at from `c`. */
  ghost predicate Relaxed(open: set<MapPosition>, visited: Visits, c: MapPosition, n: nat)
    requires n <= 4 && c in visited
  {
    forall i :: 0 <= i < n && Neighbours(c)[i] in open ==>
      Neighbours(c)[i] in visited && visited[Neighbours(c)[i]].cost <= visited[c].cost + 1
  }

  ghost predicate AllRelaxed(open: set<MapPosition>, visited: Visits, closed: set<MapPosition>) {
    forall c :: c in closed ==> c in visited && Relaxed(open, visited, c, 4)
  }

  function Begin(start: MapPosition, goal: MapPosition): Search {
    Search(map[start := Record(0, start)], {EntryFor(start, 0, goal)}, {}, map[start := []])
  }

  lemma BeginHolds(open: set<MapPosition>, start: MapPosition, goal: MapPosition)
    ensures Invariant(open, start, goal, Begin(start, goal)) && AllRelaxed(open, Begin(start, goal).visited, {})
  {
    assert Leads(open, start, [], start);
  }

  /** On the way to any field not yet expanded there is one on the frontier that underestimates
      the whole way: the reason the first expansion of a field is its best. */
  lemma {:induction false} FrontierUnderestimates(
      open: set<MapPosition>, start: MapPosition, goal: MapPosition, s: Search,
      path: seq<MapPosition>) returns (u: MapPosition)
    requires Invariant(open, start, goal, s) && AllRelaxed(open, s.visited, s.closed)
    requires Route(open, start, path) && EndOf(start, path) !in s.closed
    ensures u in s.visited && u !in s.closed
    ensures s.visited[u].cost + Distance(u, goal) <= |path| + Distance(EndOf(start, path), goal)
    decreases |path|
  {
    if path == [] { return start; }
    Shorten(open, start, path);
    var before := path[..|path| - 1];
    var last := path[|path| - 1];
    var c := EndOf(start, before);
    if c in s.closed {
      assert Leads(open, start, before, c);
      NeighboursAreAdjacent(c, last);
      assert Relaxed(open, s.visited, c, 4);
      return last;
    }
    u := FrontierUnderestimates(open, start, goal, s, before);
  }

  /** When every visited field is expanded, everything reachable has been. */
  lemma {:induction false} ExhaustedIsComplete(
      open: set<MapPosition>, start: MapPosition, goal: MapPosition, s: Search, path: seq<MapPosition>)
    requires Invariant(open, start, goal, s) && AllRelaxed(open, s.visited, s.closed) && s.frontier == {}
    requires Route(open, start, path)
    ensures EndOf(start, path) in s.closed
  {
    if EndOf(start, path) !in s.closed {
      var u := FrontierUnderestimates(open, start, goal, s, path);
      assert false;
    }
  }

  /** A stale entry can be dropped. */
  lemma StaleIsHarmless(open: set<MapPosition>, start: MapPosition, goal: MapPosition, s: Search, e: Entry)
    requires Invariant(open, start, goal, s) && e in s.frontier && s.visited[e.position].cost != e.cost
    ensures var after := s.(frontier := s.frontier - {e});
      Invariant(open, start, goal, after)
  {
    hide Recorded, Parented, Settled;
  }

  /** The best entry, if not stale, names its field at its least cost; expanding it is final. */
  lemma TopIsOptimal(open: set<MapPosition>, start: MapPosition, goal: MapPosition, s: Search, e: Entry)
    requires Invariant(open, start, goal, s) && AllRelaxed(open, s.visited, s.closed)
    requires Top(s.frontier, e) && s.visited[e.position].cost == e.cost
    ensures e in s.frontier && e.position in s.visited
    ensures e.position !in s.closed && Optimal(open, start, e.position, e.cost)
  {
    hide Route, Distance;
    forall path | Leads(open, start, path, e.position) ensures e.cost <= |path| {
      var u := FrontierUnderestimates(open, start, goal, s, path);
      assert !After(e, EntryFor(u, s.visited[u].cost, goal));
    }
  }

  lemma Expand(open: set<MapPosition>, start: MapPosition, goal: MapPosition, s: Search, e: Entry)
    requires Invariant(open, start, goal, s) && AllRelaxed(open, s.visited, s.closed)
    requires Top(s.frontier, e) && s.visited[e.position].cost == e.cost
    ensures e.position !in s.closed
    ensures var after := s.(frontier := s.frontier - {e}, closed := s.closed + {e.position});
      Invariant(open, start, goal, after)
  {
    hide Recorded, Leads, Optimal, Adjacent, Parented, Queued;
    TopIsOptimal(open, start, goal, s, e);
    ExpandKeepsBooks(start, goal, s, e);
  }

  lemma ExpandKeepsBooks(start: MapPosition, goal: MapPosition, s: Search, e: Entry)
    requires Parented(start, s.visited, s.closed) && Queued(goal, s.visited, s.frontier, s.closed)
    requires e in s.frontier && e.position in s.visited && s.visited[e.position].cost == e.cost
    ensures Parented(start, s.visited, s.closed + {e.position})
    ensures Queued(goal, s.visited, s.frontier - {e}, s.closed + {e.position})
  {
    hide Adjacent, Distance;
  }

  function Push(s: Search, at: MapPosition, p: MapPosition, goal: MapPosition): Search
    requires at in s.visited && at in s.routes
  {
    var cost := s.visited[at].cost + 1;
    Search(s.visited[p := Record(cost, at)], s.frontier + {EntryFor(p, cost, goal)}, s.closed,
      s.routes[p := s.routes[at] + [p]])
  }

  predicate Improves(s: Search, at: MapPosition, p: MapPosition)
    requires at in s.visited
  {
    p !in s.visited || s.visited[at].cost + 1 < s.visited[p].cost
  }

  /** A strictly better way to a field: never one already expanded, and never a second time
      with the same cost. */
  lemma PushIsNew(
      open: set<MapPosition>, start: MapPosition, goal: MapPosition, s: Search, at: MapPosition, p: MapPosition)
    requires Invariant(open, start, goal, s) && at in s.visited && p in open && Adjacent(at, p)
    requires Improves(s, at, p)
    ensures p != start && p !in s.closed && EntryFor(p, s.visited[at].cost + 1, goal) !in s.frontier
    ensures Leads(open, start, s.routes[at] + [p], p)
  {
    hide Optimal, Adjacent, Distance, Leads, Parented;
    Reaches(open, start, s.routes[at], at, p);
    if p in s.closed {
      OptimalMeans(open, start, p, s.visited[p].cost, s.routes[at] + [p]);
    }
  }

  lemma PushHolds(
      open: set<MapPosition>, start: MapPosition, goal: MapPosition, s: Search, at: MapPosition, p: MapPosition)
    requires Invariant(open, start, goal, s) && at in s.closed && p in open && Adjacent(at, p) && at in s.visited
    requires Improves(s, at, p)
    ensures Invariant(open, start, goal, Push(s, at, p, goal))
  {
    hide Optimal, Adjacent, Distance, Leads, Parented, Queued;
    PushIsNew(open, start, goal, s, at, p);
    PushRecorded(open, start, s, at, p, goal);
    PushParented(start, s, at, p, goal);
    PushQueued(s, at, p, goal);
  }

  lemma PushRecorded(
      open: set<MapPosition>, start: MapPosition, s: Search, at: MapPosition, p: MapPosition, goal: MapPosition)
    requires Recorded(open, start, s.visited, s.routes) && at in s.visited && p in open && p != start
    requires Leads(open, start, s.routes[at] + [p], p)
    ensures var after := Push(s, at, p, goal);
      Recorded(open, start, after.visited, after.routes)
  {
    hide Leads;
  }

  lemma PushParented(start: MapPosition, s: Search, at: MapPosition, p: MapPosition, goal: MapPosition)
    requires Parented(start, s.visited, s.closed) && at in s.visited && at in s.routes && at in s.closed
    requires Adjacent(at, p) && p !in s.closed
    ensures var after := Push(s, at, p, goal);
      Parented(start, after.visited, after.closed)
  {
    hide Adjacent;
  }

  lemma PushQueued(s: Search, at: MapPosition, p: MapPosition, goal: MapPosition)
    requires Queued(goal, s.visited, s.frontier, s.closed) && at in s.visited && at in s.routes && Improves(s, at, p)
    requires p !in s.closed
    ensures var after := Push(s, at, p, goal);
      Queued(goal, after.visited, after.frontier, after.closed)
  {
    hide Distance;
  }

  lemma Reaches(open: set<MapPosition>, start: MapPosition, path: seq<MapPosition>, at: MapPosition, p: MapPosition)
    requires Leads(open, start, path, at) && p in open && Adjacent(at, p)
    ensures Leads(open, start, path + [p], p)
  {
    Extend(open, start, path, p);
  }

  lemma OptimalMeans(open: set<MapPosition>, start: MapPosition, p: MapPosition, cost: nat, path: seq<MapPosition>)
    requires Optimal(open, start, p, cost) && Leads(open, start, path, p)
    ensures cost <= |path|
  {
  }

  lemma PushKeepsRelaxed(
      open: set<MapPosition>, goal: MapPosition, s: Search, at: MapPosition, p: MapPosition, c: MapPosition, n: nat)
    requires at in s.visited && at in s.routes && Improves(s, at, p) && c in s.visited && c != p && n <= 4
    requires Relaxed(open, s.visited, c, n)
    ensures Relaxed(open, Push(s, at, p, goal).visited, c, n)
  {
  }
}
