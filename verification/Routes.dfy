/** Same-floor routes over a set of usable fields: what a path search has to find. */
module Routes {
  import opened World

  predicate ValidPosition(p: MapPosition) {
    0 <= p.x <= 65535 && 0 <= p.y <= 65535 && 0 <= p.z <= 15
  }

  function Abs(n: int): nat {
    if n < 0 then -n else n
  }

  function Distance(p: MapPosition, q: MapPosition): nat {
    Abs(p.x - q.x) + Abs(p.y - q.y)
  }

  /** North, east, south, west. */
  function Neighbours(p: MapPosition): (ps: seq<MapPosition>)
    ensures |ps| == 4
  {
    [p.(y := p.y - 1), p.(x := p.x + 1), p.(y := p.y + 1), p.(x := p.x - 1)]
  }

  predicate Adjacent(p: MapPosition, q: MapPosition) {
    p.z == q.z && Distance(p, q) == 1
  }

  lemma NeighboursAreAdjacent(p: MapPosition, q: MapPosition)
    ensures Adjacent(p, q) <==> q in Neighbours(p)
    ensures Adjacent(p, q) ==> exists i :: 0 <= i < 4 && Neighbours(p)[i] == q
  {
    if Adjacent(p, q) {
      var ps := Neighbours(p);
      assert q == ps[0] || q == ps[1] || q == ps[2] || q == ps[3];
    }
  }

  /** The field a route stands on after `i` steps. */
  function Stop(start: MapPosition, path: seq<MapPosition>, i: nat): MapPosition
    requires i <= |path|
  {
    if i == 0 then start else path[i - 1]
  }

  function EndOf(start: MapPosition, path: seq<MapPosition>): MapPosition {
    Stop(start, path, |path|)
  }

  /** Single steps from `start` over usable fields; `start` itself need not be usable. */
  ghost predicate Route(open: set<MapPosition>, start: MapPosition, path: seq<MapPosition>) {
    forall i :: 0 <= i < |path| ==> path[i] in open && Adjacent(Stop(start, path, i), path[i])
  }

  ghost predicate Leads(open: set<MapPosition>, start: MapPosition, path: seq<MapPosition>, goal: MapPosition) {
    Route(open, start, path) && EndOf(start, path) == goal
  }

  ghost predicate Reachable(open: set<MapPosition>, start: MapPosition, goal: MapPosition) {
    exists path :: Leads(open, start, path, goal)
  }

  ghost predicate Shortest(open: set<MapPosition>, start: MapPosition, goal: MapPosition, path: seq<MapPosition>) {
    Leads(open, start, path, goal) && forall other :: Leads(open, start, other, goal) ==> |path| <= |other|
  }

  lemma Extend(open: set<MapPosition>, start: MapPosition, path: seq<MapPosition>, p: MapPosition)
    requires Route(open, start, path) && p in open && Adjacent(EndOf(start, path), p)
    ensures Leads(open, start, path + [p], p)
  {
    var longer := path + [p];
    forall i | 0 <= i < |longer| ensures longer[i] in open && Adjacent(Stop(start, longer, i), longer[i]) {
      assert i < |path| ==> longer[i] == path[i];
    }
  }

  lemma Prepend(open: set<MapPosition>, start: MapPosition, p: MapPosition, path: seq<MapPosition>)
    requires Route(open, p, path) && p in open && Adjacent(start, p)
    ensures Route(open, start, [p] + path) && EndOf(start, [p] + path) == EndOf(p, path)
  {
    var longer := [p] + path;
    forall i | 0 <= i < |longer| ensures longer[i] in open && Adjacent(Stop(start, longer, i), longer[i]) {
      if i > 0 {
        assert longer[i] == path[i - 1];
        assert Stop(start, longer, i) == Stop(p, path, i - 1);
      }
    }
  }

  lemma Shorten(open: set<MapPosition>, start: MapPosition, path: seq<MapPosition>)
    requires path != [] && Route(open, start, path)
    ensures var before := path[..|path| - 1];
      Route(open, start, before) && EndOf(start, before) == Stop(start, path, |path| - 1)
  {
    var before := path[..|path| - 1];
    forall i | 0 <= i < |before| ensures before[i] in open && Adjacent(Stop(start, before, i), before[i]) {
      assert path[i] in open && Adjacent(Stop(start, path, i), path[i]);
    }
  }

  function Reversed(path: seq<MapPosition>): (back: seq<MapPosition>)
    ensures |back| == |path|
  {
    seq(|path|, i requires 0 <= i < |path| => path[|path| - 1 - i])
  }

  lemma ReversedPush(path: seq<MapPosition>, p: MapPosition)
    ensures Reversed(path + [p]) == [p] + Reversed(path)
  {
  }
}
