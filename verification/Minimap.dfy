/** clientcore/src/minimap.cpp: retained terrain, what is in sight of it, and the two searches
    over it. */
module Minimap {
  import opened World
  import opened Routes
  import opened AStar
  import opened Breadth
  import opened MinimapFile

  predicate Usable(land: Land, blockers: set<MapPosition>, p: MapPosition) {
    ValidPosition(p) && p in land && land[p].groundType != 0 && !land[p].staticObstacle && p !in blockers
  }

  /** The fields a route may use: known, with ground, without an obstacle, not blocked. */
  function Open(land: Land, blockers: set<MapPosition>): set<MapPosition> {
    set p | p in land && Usable(land, blockers, p)
  }

  predicate GoodEnds(start: MapPosition, goal: MapPosition) {
    ValidPosition(start) && ValidPosition(goal) && start.z == goal.z
  }

  class KnownMinimap {
    var terrain: Land
    var live: set<MapPosition>

    constructor ()
      ensures terrain == map[] && live == {}
    {
      terrain := map[];
      live := {};
    }

    ghost predicate Valid()
      reads this
    {
      Sound(Memory(terrain, live))
    }

    /** Everything described this time is live; the first observations beyond the cell limit
        are dropped. */
    method Observe(cells: seq<Cell>)
      modifies this
      ensures Memory(terrain, live) == Observed(old(terrain), cells, |cells|)
    {
      live := {};
      for i := 0 to |cells|
        invariant Memory(terrain, live) == Observed(old(terrain), cells, i)
      {
        var cell := cells[i];
        if !ValidPosition(cell.position) { continue; }
        if cell.position !in terrain && |terrain| >= CELL_LIMIT { continue; }
        terrain := terrain[cell.position := cell.terrain];
        live := live + {cell.position};
      }
    }

    method EndObservation()
      modifies this`live
      ensures live == {}
    {
      live := {};
    }

    method Save(scope: string) returns (text: string)
      requires Valid()
      ensures Placed(terrain) && text == Saved(terrain, scope)
    {
      hide Saved, LandPieces, Print, Decimal, CellPieces, Keys;
      var keys := Keys(terrain);
      SavedInOrder(terrain, scope);
      text := Print(Header(scope, |terrain|));
      for i := 0 to |keys|
        invariant text + Print(LandPieces(keys[i..], terrain)) == Saved(terrain, scope)
      {
        SaveCell(text, keys, i, terrain);
        text := text + Print(CellPieces(keys[i], terrain[keys[i]]));
      }
      NothingLeftToSave(text, keys, terrain);
    }

    /** All or nothing: a text that is refused changes nothing. */
    method Load(text: string, scope: string) returns (ok: bool)
      modifies this
      ensures ok <==> Loaded(text, scope).Some?
      ensures ok ==> terrain == Loaded(text, scope).value && live == {}
      ensures !ok ==> terrain == old(terrain) && live == old(live)
    {
      hide Words, Number, ReadCells;
      if |text| > TEXT_LIMIT || scope == "" { return false; }
      var words := Words(text);
      if |words| < 3 { return false; }
      var declared := Number(words[2]);
      if declared == None || (words[0] != MAGIC_1 && words[0] != MAGIC_2) || words[1] != scope
        || declared.value > CELL_LIMIT {
        return false;
      }
      var cells := LoadCells(words, declared.value, words[0] == MAGIC_2);
      if cells == None || cells.value.1 != |words| { return false; }
      terrain := cells.value.0;
      live := {};
      return true;
    }

    method LoadCells(words: seq<string>, count: nat, colours: bool) returns (cells: Option<(Land, nat)>)
      requires |words| >= 3
      ensures cells == ReadCells(words, 3, count, colours, map[])
    {
      hide ReadCell;
      var at := 3;
      var parsed: Land := map[];
      var width := if colours then 6 else 5;
      for i := 0 to count
        invariant at <= |words|
        invariant ReadCells(words, at, count - i, colours, parsed) == ReadCells(words, 3, count, colours, map[])
      {
        if at + width > |words| { return None; }
        var cell := ReadCell(words, at, colours);
        if cell == None || cell.value.position in parsed { return None; }
        parsed := parsed[cell.value.position := cell.value.terrain];
        at := at + width;
      }
      return Some((parsed, at));
    }

    /** A*: complete and optimal. A path is found exactly when there is a route, and no route is
        shorter. */
    method FindPath(
        start: MapPosition, goal: MapPosition, blockers: set<MapPosition>) returns (found: bool, path: seq<MapPosition>)
      ensures found <==> GoodEnds(start, goal) && Reachable(Open(terrain, blockers), start, goal)
      ensures found ==> Shortest(Open(terrain, blockers), start, goal, path)
      ensures !found ==> path == []
    {
      hide Recorded, Parented, Queued, Settled, AllRelaxed, Route, Open, Distance, After, Reversed;
      ghost var open := Open(terrain, blockers);
      if !ValidPosition(start) || !ValidPosition(goal) || start.z != goal.z { return false, []; }
      if start == goal {
        StandingStill(open, start);
        return true, [];
      }
      if !Usable(terrain, blockers, goal) {
        OpenIsUsable(terrain, blockers, goal);
        NothingLeadsOutside(open, start, goal);
        return false, [];
      }
      var frontier := {EntryFor(start, 0, goal)};
      var visited := map[start := Record(0, start)];
      ghost var closed: set<MapPosition> := {};
      ghost var routes: map<MapPosition, seq<MapPosition>> := map[start := []];
      BeginHolds(open, start, goal);
      while frontier != {}
        invariant Invariant(open, start, goal, Search(visited, frontier, closed, routes))
        invariant AllRelaxed(open, visited, closed) && goal !in closed
        decreases open + {start} - closed, frontier
      {
        ghost var s := Search(visited, frontier, closed, routes);
        TopExists(frontier);
        var at :| at in frontier && forall other :: other in frontier ==> !After(at, other);
        EntryIsVisited(open, start, goal, s, at);
        frontier := frontier - {at};
        if visited[at.position].cost != at.cost {
          StaleIsHarmless(open, start, goal, s, at);
          continue;
        }
        Expand(open, start, goal, s, at);
        if at.position == goal {
          path := Retrace(visited, start, goal, open, closed, routes);
          OptimalIsShortest(open, start, goal, s, at, path);
          return true, path;
        }
        closed := closed + {at.position};
        assert closed - {at.position} == s.closed;
        visited, frontier, routes := ExpandInto(at, visited, frontier, blockers, start, goal, closed, routes);
      }
      NoWayLeft(open, start, goal, Search(visited, frontier, closed, routes));
      return false, [];
    }

    /** A complete route when there is one; otherwise the best known segment towards unexplored
        terrain, when there is any. */
    method FindNavigationPath(start: MapPosition, goal: MapPosition, blockers: set<MapPosition>)
      returns (found: bool, path: seq<MapPosition>)
      ensures !GoodEnds(start, goal) || Refused(terrain, blockers, start, goal) ==> !found
      ensures GoodEnds(start, goal) && Reachable(Open(terrain, blockers), start, goal)
        ==> found && Shortest(Open(terrain, blockers), start, goal, path)
      ensures GoodEnds(start, goal) && !Refused(terrain, blockers, start, goal) ==>
        !Reachable(Open(terrain, blockers), start, goal) ==>
          (found <==> HasFrontier(Open(terrain, blockers), terrain.Keys + blockers, start))
      ensures found && !Reachable(Open(terrain, blockers), start, goal)
        ==> BestSegment(Open(terrain, blockers), terrain.Keys + blockers, start, goal, path)
      ensures !found ==> path == []
    {
      if !ValidPosition(start) || !ValidPosition(goal) || start.z != goal.z { return false, []; }
      RefusedIsUnreachable(terrain, blockers, start, goal);
      if goal in blockers && goal != start { return false, []; }
      if goal in terrain && goal != start && !Usable(terrain, blockers, goal) { return false, []; }
      found, path := FindPath(start, goal, blockers);
      if found { return; }
      found, path := Explore(start, goal, blockers);
    }

    /** The breadth-first half: a queue walked by index, the best frontier field so far. */
    method Explore(
        start: MapPosition, goal: MapPosition, blockers: set<MapPosition>) returns (found: bool, path: seq<MapPosition>)
      ensures found <==> HasFrontier(Open(terrain, blockers), terrain.Keys + blockers, start)
      ensures found ==> BestSegment(Open(terrain, blockers), terrain.Keys + blockers, start, goal, path)
      ensures !found ==> path == []
    {
      hide Recorded, Parented, Level, Spread, Compared, Attained, Relaxed, HasFrontier, BestSegment, Open;
      ghost var open := Open(terrain, blockers);
      ghost var seen := terrain.Keys + blockers;
      var visited := map[start := Record(0, start)];
      var queue := [start];
      var best := Best(false, start, 0, 0);
      ghost var routes: map<MapPosition, seq<MapPosition>> := map[start := []];
      ExplorationStarts(open, seen, start, goal, best);
      var i := 0;
      while i < |queue|
        invariant i <= |queue|
        invariant Exploring(open, seen, start, goal, visited, queue, routes, i, 0, best)
        decreases |open + {start}| - i
      {
        QueueIsVisited(open, seen, start, goal, visited, queue, routes, i, 0, best);
        visited, queue, best, routes := LookAround(i, visited, queue, best, blockers, start, goal, routes);
        i := i + 1;
        QueueFits(open, seen, start, goal, visited, queue, routes, i, 0, best);
      }
      ExplorationEnds(open, seen, start, goal, visited, queue, routes, best);
      if !best.found { return false, []; }
      path := Retrace(visited, start, best.frontier, open, visited.Keys, routes);
      SegmentIsBest(open, seen, start, goal, visited, queue, routes, best, path);
      found := path != [];
    }

    /** The loop over the four neighbours of the field in hand. */
    method LookAround(
        i: nat, visited: Visits, queue: seq<MapPosition>, best: Best, blockers: set<MapPosition>, start: MapPosition,
        goal: MapPosition, ghost routes: map<MapPosition, seq<MapPosition>>)
      returns (visited': Visits, queue': seq<MapPosition>, best': Best,
        ghost routes': map<MapPosition, seq<MapPosition>>)
      requires i < |queue|
      requires Exploring(Open(terrain, blockers), terrain.Keys + blockers, start, goal, visited, queue, routes, i, 0,
        best)
      ensures i < |queue'|
      ensures Exploring(Open(terrain, blockers), terrain.Keys + blockers, start, goal, visited', queue', routes', i + 1,
        0, best')
    {
      hide Exploring, Open, Usable, Distance, Neighbours;
      ghost var open := Open(terrain, blockers);
      ghost var seen := terrain.Keys + blockers;
      visited', queue', best', routes' := visited, queue, best, routes;
      QueueIsVisited(open, seen, start, goal, visited, queue, routes, i, 0, best);
      var at := queue[i];
      var cost := visited[at].cost;
      var next := Neighbours(at);
      for n := 0 to 4
        invariant i < |queue'| && queue'[i] == at && at in visited' && visited'[at].cost == cost
        invariant Exploring(open, seen, start, goal, visited', queue', routes', i, n, best')
      {
        var p := next[n];
        OpenIsUsable(terrain, blockers, p);
        ghost var before := best';
        if ValidPosition(p) {
          // The segment stops at observed terrain: an unknown field is never appended.
          if at != start && p !in terrain && p !in blockers {
            var distance := Distance(p, goal);
            if !best'.found || distance < best'.distance || (distance == best'.distance && cost < best'.cost) {
              best' := Best(true, at, distance, cost);
            }
          }
          assert best' == Consider(seen, start, goal, at, cost, p, before);
          ghost var v, q, r := visited', queue', routes';
          if Usable(terrain, blockers, p) && p !in visited' {
            visited' := visited'[p := Record(cost + 1, at)];
            queue' := queue' + [p];
            routes' := if at in routes' then routes'[p := routes'[at] + [p]] else routes';
          }
          LookedAt(open, seen, start, goal, v, q, r, i, n, before);
        } else {
          UsableIsValid(terrain, blockers, p);
          LookedAt(open, seen, start, goal, visited', queue', routes', i, n, before);
        }
      }
      NextField(open, seen, start, goal, visited', queue', routes', i, best');
    }

    /** The loop over the four neighbours of an expanded field. */
    method ExpandInto(
        at: Entry, visited: Visits, frontier: set<Entry>, blockers: set<MapPosition>, start: MapPosition,
        goal: MapPosition, ghost closed: set<MapPosition>, ghost routes: map<MapPosition, seq<MapPosition>>)
      returns (visited': Visits, frontier': set<Entry>, ghost routes': map<MapPosition, seq<MapPosition>>)
      requires Invariant(Open(terrain, blockers), start, goal, Search(visited, frontier, closed, routes))
      requires at.position in closed && at.position in visited && visited[at.position].cost == at.cost
      requires AllRelaxed(Open(terrain, blockers), visited, closed - {at.position})
      ensures Invariant(Open(terrain, blockers), start, goal, Search(visited', frontier', closed, routes'))
      ensures AllRelaxed(Open(terrain, blockers), visited', closed)
    {
      hide Invariant, Recorded, AllRelaxed, Relaxed, Usable, Distance, Adjacent, Neighbours;
      ghost var open := Open(terrain, blockers);
      visited', frontier', routes' := visited, frontier, routes;
      var next := Neighbours(at.position);
      NothingRelaxed(open, start, goal, Search(visited, frontier, closed, routes), at.position);
      for i := 0 to 4
        invariant Invariant(open, start, goal, Search(visited', frontier', closed, routes'))
        invariant at.position in visited' && visited'[at.position].cost == at.cost && at.position in routes'
        invariant AllRelaxed(open, visited', closed - {at.position}) && Relaxed(open, visited', at.position, i)
      {
        var p := next[i];
        assert p in open <==> Usable(terrain, blockers, p) by { OpenIsUsable(terrain, blockers, p); }
        if Usable(terrain, blockers, p) {
          var cost := at.cost + 1;
          if p !in visited' || cost < visited'[p].cost {
            PushNeighbour(open, start, goal, Search(visited', frontier', closed, routes'), at.position, i);
            visited' := visited'[p := Record(cost, at.position)];
            frontier' := frontier' + {Entry(p, cost, cost + Distance(p, goal))};
            routes' := routes'[p := routes'[at.position] + [p]];
          }
        }
        RelaxedNext(open, visited', at.position, i);
      }
      AllRelaxedNow(open, visited', closed, at.position);
    }
  }

  lemma OpenIsUsable(land: Land, blockers: set<MapPosition>, p: MapPosition)
    ensures p in Open(land, blockers) <==> Usable(land, blockers, p)
  {
  }

  lemma NothingRelaxed(open: set<MapPosition>, start: MapPosition, goal: MapPosition, s: Search, c: MapPosition)
    requires Invariant(open, start, goal, s) && c in s.visited
    ensures Relaxed(open, s.visited, c, 0) && c in s.routes
  {
  }

  lemma RelaxedNext(open: set<MapPosition>, visited: Visits, c: MapPosition, n: nat)
    requires n < 4 && c in visited && Relaxed(open, visited, c, n)
    requires var p := Neighbours(c)[n];
      p in open ==> p in visited && visited[p].cost <= visited[c].cost + 1
    ensures Relaxed(open, visited, c, n + 1)
  {
  }

  lemma AllRelaxedNow(open: set<MapPosition>, visited: Visits, closed: set<MapPosition>, c: MapPosition)
    requires c in visited && AllRelaxed(open, visited, closed - {c}) && Relaxed(open, visited, c, 4)
    ensures AllRelaxed(open, visited, closed)
  {
  }

  /** Everything one push preserves. */
  lemma PushNeighbour(open: set<MapPosition>, start: MapPosition, goal: MapPosition, s: Search, at: MapPosition, i: nat)
    requires Invariant(open, start, goal, s) && at in s.closed && at in s.visited && i < 4
    requires Neighbours(at)[i] in open && Improves(s, at, Neighbours(at)[i])
    requires AllRelaxed(open, s.visited, s.closed - {at}) && Relaxed(open, s.visited, at, i)
    ensures at in s.routes && Neighbours(at)[i] != at
    ensures var after := Push(s, at, Neighbours(at)[i], goal);
      Invariant(open, start, goal, after) && AllRelaxed(open, after.visited, s.closed - {at})
      && Relaxed(open, after.visited, at, i)
  {
    hide AllRelaxed, Relaxed, Parented, Queued, Settled, Leads;
    var p := Neighbours(at)[i];
    NeighboursAreAdjacent(at, p);
    PushIsNew(open, start, goal, s, at, p);
    PushHolds(open, start, goal, s, at, p);
    PushKeepsAllRelaxed(open, goal, s, at, p, s.closed - {at}, i);
  }

  /** Goals that are known to be impassable are refused without a search. */
  predicate Refused(land: Land, blockers: set<MapPosition>, start: MapPosition, goal: MapPosition) {
    goal != start && (goal in blockers || (goal in land && !Usable(land, blockers, goal)))
  }

  lemma RefusedIsUnreachable(land: Land, blockers: set<MapPosition>, start: MapPosition, goal: MapPosition)
    ensures Refused(land, blockers, start, goal) ==> !Reachable(Open(land, blockers), start, goal)
  {
    if Refused(land, blockers, start, goal) {
      NothingLeadsOutside(Open(land, blockers), start, goal);
    }
  }

  /** The invariant of the breadth-first search, `n` neighbours into field `i`. */
  ghost predicate Exploring(
      open: set<MapPosition>, seen: set<MapPosition>, start: MapPosition, goal: MapPosition, visited: Visits,
      queue: seq<MapPosition>, routes: map<MapPosition, seq<MapPosition>>, i: nat, n: nat, best: Best)
  {
    && n <= 4 && i <= |queue|
    && Recorded(open, start, visited, routes) && Parented(start, visited, visited.Keys)
    && Level(start, visited, queue, i) && Spread(open, visited, queue, i)
    && Compared(seen, start, goal, visited, queue, i, n, best) && Attained(seen, start, goal, visited, best)
    && (i < |queue| ==> queue[i] in visited && Relaxed(open, visited, queue[i], n))
  }

  lemma ExplorationStarts(
      open: set<MapPosition>, seen: set<MapPosition>, start: MapPosition, goal: MapPosition, best: Best)
    requires !best.found
    ensures Exploring(open, seen, start, goal, map[start := Record(0, start)], [start], map[start := []], 0, 0, best)
  {
    LevelStarts(start);
    assert Leads(open, start, [], start);
  }

  lemma QueueIsVisited(
      open: set<MapPosition>, seen: set<MapPosition>, start: MapPosition, goal: MapPosition, visited: Visits,
      queue: seq<MapPosition>, routes: map<MapPosition, seq<MapPosition>>, i: nat, n: nat, best: Best)
    requires Exploring(open, seen, start, goal, visited, queue, routes, i, n, best)
    ensures forall j :: 0 <= j < |queue| ==> queue[j] in visited && queue[j] in routes
  {
    hide Parented, Spread, Compared, Attained, Relaxed, Leads;
    assert forall j :: 0 <= j < |queue| ==> queue[j] in queue;
  }

  lemma {:induction false} DistinctFits(queue: seq<MapPosition>, all: set<MapPosition>)
    requires forall j, k :: 0 <= j < k < |queue| ==> queue[j] != queue[k]
    requires forall j :: 0 <= j < |queue| ==> queue[j] in all
    ensures |queue| <= |all|
    decreases |queue|
  {
    if queue != [] {
      var last := queue[|queue| - 1];
      DistinctFits(queue[..|queue| - 1], all - {last});
    }
  }

  lemma QueueFits(
      open: set<MapPosition>, seen: set<MapPosition>, start: MapPosition, goal: MapPosition, visited: Visits,
      queue: seq<MapPosition>, routes: map<MapPosition, seq<MapPosition>>, i: nat, n: nat, best: Best)
    requires Exploring(open, seen, start, goal, visited, queue, routes, i, n, best)
    ensures |queue| <= |open + {start}|
  {
    hide Parented, Spread, Compared, Attained, Relaxed, Leads;
    QueueIsVisited(open, seen, start, goal, visited, queue, routes, i, n, best);
    DistinctFits(queue, open + {start});
  }

  /** One neighbour looked at: compared as a frontier, and visited if usable and new. */
  lemma LookedAt(
      open: set<MapPosition>, seen: set<MapPosition>, start: MapPosition, goal: MapPosition, visited: Visits,
      queue: seq<MapPosition>, routes: map<MapPosition, seq<MapPosition>>, i: nat, n: nat, best: Best)
    requires Exploring(open, seen, start, goal, visited, queue, routes, i, n, best) && i < |queue| && n < 4
    ensures queue[i] in visited && queue[i] in routes
    ensures var at := queue[i];
      var p := Neighbours(at)[n];
      var best' := Consider(seen, start, goal, at, visited[at].cost, p, best);
      if p in open && p !in visited
      then Exploring(open, seen, start, goal, visited[p := Record(visited[at].cost + 1, at)], queue + [p],
                     routes[p := routes[at] + [p]], i, n + 1, best')
      else Exploring(open, seen, start, goal, visited, queue, routes, i, n + 1, best')
  {
    hide Recorded, Parented, Level, Spread, Compared, Attained, Relaxed, Neighbours, Consider;
    QueueIsVisited(open, seen, start, goal, visited, queue, routes, i, n, best);
    var at := queue[i];
    var p := Neighbours(at)[n];
    var best' := Consider(seen, start, goal, at, visited[at].cost, p, best);
    ConsiderCompares(seen, start, goal, visited, queue, i, n, best);
    NeighboursAreAdjacent(at, p);
    assert p in Neighbours(at);
    if p in open && p !in visited {
      RecordedGrows(open, start, visited, routes, at, p);
      LevelGrows(start, visited, queue, i, p);
      SpreadGrows(open, visited, queue, i, p, visited[at].cost + 1, at, n);
      ComparedGrows(seen, start, goal, visited, queue, i, n + 1, best', p, visited[at].cost + 1, at);
      RelaxedNext(open, visited[p := Record(visited[at].cost + 1, at)], at, n);
    } else {
      if p in open { VisitIsRelaxed(start, visited, queue, i, p); }
      RelaxedNext(open, visited, at, n);
    }
  }

  lemma NextField(
      open: set<MapPosition>, seen: set<MapPosition>, start: MapPosition, goal: MapPosition, visited: Visits,
      queue: seq<MapPosition>, routes: map<MapPosition, seq<MapPosition>>, i: nat, best: Best)
    requires Exploring(open, seen, start, goal, visited, queue, routes, i, 4, best) && i < |queue|
    ensures Exploring(open, seen, start, goal, visited, queue, routes, i + 1, 0, best)
  {
    hide Recorded, Parented, Level, Compared, Attained, Neighbours;
    QueueIsVisited(open, seen, start, goal, visited, queue, routes, i, 4, best);
    LevelAdvances(start, visited, queue, i);
    ComparedAdvances(seen, start, goal, visited, queue, i, best);
  }

  lemma ExplorationEnds(
      open: set<MapPosition>, seen: set<MapPosition>, start: MapPosition, goal: MapPosition, visited: Visits,
      queue: seq<MapPosition>, routes: map<MapPosition, seq<MapPosition>>, best: Best)
    requires Exploring(open, seen, start, goal, visited, queue, routes, |queue|, 0, best)
    ensures best.found <==> HasFrontier(open, seen, start)
    ensures Recorded(open, start, visited, routes) && Parented(start, visited, visited.Keys)
    ensures best.found ==>
      best.frontier in visited && best.frontier != start && visited[best.frontier].cost == best.cost
  {
    hide Recorded, Parented, Level, Spread, Compared, HasFrontier;
    ExhaustedIsBest(open, seen, start, goal, visited, queue, routes, best);
  }

  lemma SegmentIsBest(
      open: set<MapPosition>, seen: set<MapPosition>, start: MapPosition, goal: MapPosition, visited: Visits,
      queue: seq<MapPosition>, routes: map<MapPosition, seq<MapPosition>>, best: Best, path: seq<MapPosition>)
    requires Exploring(open, seen, start, goal, visited, queue, routes, |queue|, 0, best) && best.found
    requires Leads(open, start, path, best.frontier) && |path| == best.cost
    ensures BestSegment(open, seen, start, goal, path) && path != []
  {
    hide Recorded, Parented, Level, Spread, Compared, HasFrontier, Route, Distance, Edge, NoneBetter;
    ExhaustedIsBest(open, seen, start, goal, visited, queue, routes, best);
    forall other | Leads(open, start, other, best.frontier) ensures |path| <= |other| {
      VisitedAtLeast(open, start, visited, queue, routes, other, best.frontier);
    }
  }

  lemma UsableIsValid(land: Land, blockers: set<MapPosition>, p: MapPosition)
    ensures Usable(land, blockers, p) ==> ValidPosition(p)
  {
  }

  lemma SavedInOrder(land: Land, scope: string)
    requires forall p :: p in land ==> ValidPosition(p)
    ensures Placed(land)
    ensures forall i :: 0 <= i < |Keys(land)| ==> Keys(land)[i] in land
    ensures var keys := Keys(land);
      Print(Header(scope, |land|)) + Print(LandPieces(keys[0..], land)) == Saved(land, scope)
  {
    hide LandPieces, Print, Header, Keys;
    assert Placed(land) by { assert forall p :: p in land ==> ValidPosition(p); }
    var keys := Keys(land);
    assert forall i :: 0 <= i < |keys| ==> keys[i] in keys;
    assert keys[0..] == keys;
    PrintJoins(Header(scope, |land|), LandPieces(keys, land));
  }

  lemma SaveCell(text: string, keys: seq<MapPosition>, i: nat, land: Land)
    requires i < |keys| && Placed(land) && forall j :: 0 <= j < |keys| ==> keys[j] in land
    ensures text + Print(LandPieces(keys[i..], land))
      == (text + Print(CellPieces(keys[i], land[keys[i]]))) + Print(LandPieces(keys[i + 1..], land))
  {
    hide Print, CellPieces;
    assert keys[i..][1..] == keys[i + 1..];
    PrintJoins(CellPieces(keys[i], land[keys[i]]), LandPieces(keys[i + 1..], land));
  }

  lemma NothingLeftToSave(text: string, keys: seq<MapPosition>, land: Land)
    requires Placed(land) && forall j :: 0 <= j < |keys| ==> keys[j] in land
    ensures text + Print(LandPieces(keys[|keys|..], land)) == text
  {
  }

  // ---- what observation leaves ---------------------------------------------------------------

  /** What the object remembers and what of that is in sight. */
  datatype Memory = Memory(land: Land, live: set<MapPosition>)

  ghost predicate Sound(memory: Memory) {
    && |memory.land| <= CELL_LIMIT && memory.live <= memory.land.Keys
    && forall p :: p in memory.land ==> ValidPosition(p)
  }

  function Observed(land: Land, cells: seq<Cell>, n: nat): Memory
    requires n <= |cells|
  {
    if n == 0 then Memory(land, {})
    else
      var before := Observed(land, cells, n - 1);
      var cell := cells[n - 1];
      if !ValidPosition(cell.position) || (cell.position !in before.land && |before.land| >= CELL_LIMIT) then before
      else Memory(before.land[cell.position := cell.terrain], before.live + {cell.position})
  }

  lemma {:induction false} LiveIsKnown(land: Land, cells: seq<Cell>, n: nat)
    requires n <= |cells|
    ensures Observed(land, cells, n).live <= Observed(land, cells, n).land.Keys
    ensures forall p :: p in Observed(land, cells, n).live ==> ValidPosition(p)
    decreases n
  {
    if n > 0 { LiveIsKnown(land, cells, n - 1); }
  }

  lemma {:induction false} ObservedSeen(land: Land, cells: seq<Cell>, n: nat, p: MapPosition)
    requires n <= |cells|
    ensures var after := Observed(land, cells, n);
      && (p in after.live <==> p in after.land && exists i :: 0 <= i < n && cells[i].position == p && ValidPosition(p))
      && (p in after.land <==> p in land || p in after.live)
      && (p in land && p !in after.live ==> after.land[p] == land[p])
    decreases n
  {
    if n > 0 {
      ObservedSeen(land, cells, n - 1, p);
      LiveIsKnown(land, cells, n - 1);
      var cell := cells[n - 1];
      if cell.position == p && ValidPosition(p) {
        assert exists i :: 0 <= i < n && cells[i].position == p;
      }
    }
  }

  /** Nothing known is forgotten, what is live is exactly what was described and is known, and
      only the limit can keep a valid description out. */
  lemma {:induction false} ObservedShape(land: Land, cells: seq<Cell>, n: nat)
    requires n <= |cells| && |land| <= CELL_LIMIT
    ensures var after := Observed(land, cells, n);
      && |after.land| <= CELL_LIMIT && land.Keys <= after.land.Keys
      && (forall i :: 0 <= i < n && ValidPosition(cells[i].position) && cells[i].position !in after.land ==>
        |after.land| == CELL_LIMIT)
    decreases n
  {
    hide ValidPosition;
    if n > 0 { ObservedShape(land, cells, n - 1); }
  }

  /** Cell `i` is the last of the first `n` about its field. */
  predicate LastAt(cells: seq<Cell>, n: nat, i: nat)
    requires i < n <= |cells|
  {
    forall j :: i < j < n ==> cells[j].position != cells[i].position
  }

  /** What a live field is remembered as is the last description of it. */
  lemma {:induction false} ObservedIsLatest(land: Land, cells: seq<Cell>, n: nat, p: MapPosition)
    requires n <= |cells| && p in Observed(land, cells, n).live
    ensures p in Observed(land, cells, n).land
    ensures exists i :: 0 <= i < n && cells[i] == Cell(p, Observed(land, cells, n).land[p]) && LastAt(cells, n, i)
    decreases n
  {
    hide Observed;
    ObservedLast(land, cells, n, p);
    if cells[n - 1].position != p {
      ObservedIsLatest(land, cells, n - 1, p);
      var i :| 0 <= i < n - 1 && cells[i] == Cell(p, Observed(land, cells, n - 1).land[p]) && LastAt(cells, n - 1, i);
      assert LastAt(cells, n, i);
    } else {
      assert cells[n - 1] == Cell(p, Observed(land, cells, n).land[p]) && LastAt(cells, n, n - 1);
    }
  }

  lemma ObservedLast(land: Land, cells: seq<Cell>, n: nat, p: MapPosition)
    requires n <= |cells| && p in Observed(land, cells, n).live
    ensures n > 0 && p in Observed(land, cells, n).land
    ensures cells[n - 1].position == p ==> Observed(land, cells, n).land[p] == cells[n - 1].terrain
    ensures cells[n - 1].position != p ==>
      var before := Observed(land, cells, n - 1);
      p in before.live && p in before.land && before.land[p] == Observed(land, cells, n).land[p]
  {
    hide ValidPosition;
    if n > 0 { LiveIsKnown(land, cells, n - 1); }
  }

  datatype Act = Observation(cells: seq<Cell>) | Ended | Loading(text: string, scope: string)

  function Acted(memory: Memory, act: Act): Memory {
    match act
    case Observation(cells) => Observed(memory.land, cells, |cells|)
    case Ended => memory.(live := {})
    case Loading(text, scope) => if Loaded(text, scope).Some? then Memory(Loaded(text, scope).value, {}) else memory
  }

  function AllActed(memory: Memory, acts: seq<Act>): Memory
    decreases |acts|
  {
    if acts == [] then memory else AllActed(Acted(memory, acts[0]), acts[1..])
  }

  /** Over any run: the live fields are known ones, every position is valid and the cell limit
      holds. */
  lemma {:induction false} EveryRunStaysSound(memory: Memory, acts: seq<Act>)
    requires Sound(memory)
    ensures Sound(AllActed(memory, acts))
    decreases |acts|
  {
    if acts != [] {
      ActKeepsSound(memory, acts[0]);
      EveryRunStaysSound(Acted(memory, acts[0]), acts[1..]);
    }
  }

  lemma ActKeepsSound(memory: Memory, act: Act)
    requires Sound(memory)
    ensures Sound(Acted(memory, act))
  {
    hide Loaded, Observed;
    match act
    case Observation(cells) =>
      ObservedShape(memory.land, cells, |cells|);
      LiveIsKnown(memory.land, cells, |cells|);
      forall p | p in Observed(memory.land, cells, |cells|).land ensures ValidPosition(p) {
        ObservedSeen(memory.land, cells, |cells|, p);
      }
    case Ended =>
    case Loading(text, scope) =>
      if Loaded(text, scope).Some? {
        LoadedIsStorable(text, scope);
        var land := Loaded(text, scope).value;
        assert forall p :: p in land ==> StorableCell(p, land[p]);
      }
  }

  lemma StandingStill(open: set<MapPosition>, start: MapPosition)
    ensures Shortest(open, start, start, []) && Reachable(open, start, start)
  {
    assert Leads(open, start, [], start);
  }

  lemma EntryIsVisited(open: set<MapPosition>, start: MapPosition, goal: MapPosition, s: Search, e: Entry)
    requires Invariant(open, start, goal, s) && e in s.frontier
    ensures e.position in s.visited && e.position in open + {start}
  {
  }

  lemma OptimalIsShortest(
      open: set<MapPosition>, start: MapPosition, goal: MapPosition, s: Search, e: Entry, path: seq<MapPosition>)
    requires Invariant(open, start, goal, s) && AllRelaxed(open, s.visited, s.closed)
    requires Top(s.frontier, e) && e.position in s.visited && s.visited[e.position].cost == e.cost && e.position == goal
    requires Leads(open, start, path, goal) && |path| == e.cost
    ensures Shortest(open, start, goal, path) && Reachable(open, start, goal)
  {
    hide Leads, Invariant, AllRelaxed, Top;
    TopIsOptimal(open, start, goal, s, e);
  }

  lemma NoWayLeft(open: set<MapPosition>, start: MapPosition, goal: MapPosition, s: Search)
    requires Invariant(open, start, goal, s) && AllRelaxed(open, s.visited, s.closed) && s.frontier == {}
    requires goal !in s.closed
    ensures !Reachable(open, start, goal)
  {
    hide Invariant, AllRelaxed;
    forall way ensures !Leads(open, start, way, goal) {
      if Leads(open, start, way, goal) { ExhaustedIsComplete(open, start, goal, s, way); }
    }
  }

  lemma NothingLeadsOutside(open: set<MapPosition>, start: MapPosition, goal: MapPosition)
    requires goal !in open && start != goal
    ensures !Reachable(open, start, goal)
  {
    forall path ensures !Leads(open, start, path, goal) {
    }
  }

  lemma PushKeepsAllRelaxed(
      open: set<MapPosition>, goal: MapPosition, s: Search, at: MapPosition, p: MapPosition, done: set<MapPosition>,
      n: nat)
    requires at in s.visited && at in s.routes && Improves(s, at, p) && n <= 4 && p != at
    requires AllRelaxed(open, s.visited, done) && p !in done && Relaxed(open, s.visited, at, n)
    ensures AllRelaxed(open, Push(s, at, p, goal).visited, done) && Relaxed(open, Push(s, at, p, goal).visited, at, n)
  {
    hide Relaxed;
    PushKeepsRelaxed(open, goal, s, at, p, at, n);
    forall c | c in done ensures c in s.visited && Relaxed(open, Push(s, at, p, goal).visited, c, 4) {
      PushKeepsRelaxed(open, goal, s, at, p, c, 4);
    }
  }

  /** The parent walk: from the goal back to the start, then reversed. */
  method Retrace(
      visited: Visits, start: MapPosition, goal: MapPosition,
      ghost open: set<MapPosition>, ghost closed: set<MapPosition>, ghost routes: map<MapPosition, seq<MapPosition>>)
    returns (path: seq<MapPosition>)
    requires goal in visited && Recorded(open, start, visited, routes) && Parented(start, visited, closed)
    ensures Leads(open, start, path, goal) && |path| == visited[goal].cost
  {
    var p := goal;
    var back := [];
    while p != start
      invariant p in visited && |back| + visited[p].cost == visited[goal].cost
      invariant Leads(open, p, Reversed(back), goal)
      decreases visited[p].cost
    {
      hide Leads, Adjacent;
      ghost var parent := visited[p].parent;
      PrependStep(open, parent, p, back, goal);
      back := back + [p];
      p := visited[p].parent;
    }
    path := Reversed(back);
  }

  lemma PrependStep(
      open: set<MapPosition>, parent: MapPosition, p: MapPosition, back: seq<MapPosition>, goal: MapPosition)
    requires Leads(open, p, Reversed(back), goal) && p in open && Adjacent(parent, p)
    ensures Leads(open, parent, Reversed(back + [p]), goal)
  {
    ReversedPush(back, p);
    Prepend(open, parent, p, Reversed(back));
  }
}
