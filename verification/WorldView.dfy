/** clientcore/src/worldview.cpp: successive world states turned into the events a consumer
    applies. Replaying the events rebuilds what the last state shows. */
module WorldViews {
  import opened World
  import opened Ordering
  import opened Floors
  import M = Mirror
  import Creatures

  type Tiles = map<MapPosition, seq<MapThing>>

  datatype CreatureView = CreatureView(position: MapPosition, name: seq<byte>, direction: byte)

  datatype View = View(
    initialised: bool, local: quad, anchor: MapPosition, tiles: Tiles, creatures: map<quad, CreatureView>,
    combat: M.Combat)

  const NO_COMBAT := M.Combat(0, false, false, 2, 0, 1)
  const UNSEEN := View(false, 0, M.ORIGIN, map[], map[], NO_COMBAT)

  datatype WorldEvent =
    | LocalPlayerIdentified(id: quad, name: seq<byte>, position: MapPosition, direction: byte)
    | AnchorMoved(previous: MapPosition, position: MapPosition)
    | CombatChanged(combat: M.Combat)
    | TileRemoved(position: MapPosition)
    | TileUpserted(position: MapPosition, things: seq<MapThing>)
    | CreatureAppeared(id: quad, name: seq<byte>, position: MapPosition, direction: byte, isLocal: bool)
    | CreatureMoved(id: quad, name: seq<byte>, previous: MapPosition, position: MapPosition, direction: byte,
      isLocal: bool)
    | CreatureVanished(id: quad, name: seq<byte>, position: MapPosition, isLocal: bool)

  // ---- what a state shows -----------------------------------------------------------------

  predicate BelowId(a: quad, b: quad) {
    a < b
  }

  lemma OrdersAreTotal()
    ensures TotalOrder(Before) && TotalOrder(BelowId)
  {
  }

  function Fields(tiles: Tiles): (walk: seq<MapPosition>)
    ensures forall p :: p in walk <==> p in tiles
  {
    OrdersAreTotal();
    Ordered(tiles.Keys, Before)
  }

  function Ids(creatures: map<quad, CreatureView>): (walk: seq<quad>)
    ensures forall id :: id in walk <==> id in creatures
  {
    OrdersAreTotal();
    Ordered(creatures.Keys, BelowId)
  }

  /** The stored tiles by position; a later tile on the same position wins. */
  function TilesOf(tiles: seq<MapTile>, n: nat, before: Tiles): Tiles
    requires n <= |tiles|
  {
    if n == 0 then before else TilesOf(tiles, n - 1, before)[tiles[n - 1].position := tiles[n - 1].things]
  }

  function FloorTiles(floors: seq<MapFloor>, n: nat): Tiles
    requires n <= |floors|
  {
    if n == 0 then map[] else TilesOf(floors[n - 1].tiles, |floors[n - 1].tiles|, FloorTiles(floors, n - 1))
  }

  function Current(floors: seq<MapFloor>): Tiles {
    FloorTiles(floors, |floors|)
  }

  function Seen(creature: CreatureThing, p: MapPosition, known: map<quad, M.CreatureRecord>): CreatureView {
    if creature.id in known then CreatureView(p, known[creature.id].name, known[creature.id].direction)
    else CreatureView(p, [], creature.Direction())
  }

  function SeenOn(
      things: seq<MapThing>, p: MapPosition, n: nat, known: map<quad, M.CreatureRecord>,
      before: map<quad, CreatureView>): map<quad, CreatureView>
    requires n <= |things|
  {
    if n == 0 then before
    else
      var fewer := SeenOn(things, p, n - 1, known, before);
      if things[n - 1].Creature? then fewer[things[n - 1].creature.id := Seen(things[n - 1].creature, p, known)]
        else fewer
  }

  function SeenFrom(
      tiles: Tiles, walk: seq<MapPosition>, n: nat, known: map<quad, M.CreatureRecord>): map<quad, CreatureView>
    requires n <= |walk| && forall i :: 0 <= i < |walk| ==> walk[i] in tiles
  {
    if n == 0 then map[]
    else SeenOn(tiles[walk[n - 1]], walk[n - 1], |tiles[walk[n - 1]]|, known, SeenFrom(tiles, walk, n - 1, known))
  }

  function Visible(tiles: Tiles, known: map<quad, M.CreatureRecord>): map<quad, CreatureView> {
    var walk := Fields(tiles);
    assert forall i :: 0 <= i < |walk| ==> walk[i] in walk;
    SeenFrom(tiles, walk, |walk|, known)
  }

  // ---- the events, and the view afterwards -----------------------------------------------------

  predicate NewLocal(view: View, next: M.State) {
    next.localCreature != 0 && next.localCreature != view.local
  }

  function LocalAfter(view: View, next: M.State): quad {
    if NewLocal(view, next) then next.localCreature else view.local
  }

  function IdentityEvents(view: View, next: M.State): seq<WorldEvent> {
    if !NewLocal(view, next) then []
    else if next.localCreature in next.known then
      var record := next.known[next.localCreature];
      [LocalPlayerIdentified(next.localCreature, record.name, record.position, record.direction)]
    else [LocalPlayerIdentified(next.localCreature, [], M.ORIGIN, 0)]
  }

  function AnchorEvents(view: View, next: M.State): seq<WorldEvent> {
    if !view.initialised || view.anchor != next.anchor then [AnchorMoved(view.anchor, next.anchor)] else []
  }

  function CombatEvents(view: View, next: M.State): seq<WorldEvent> {
    if view.combat != next.combat then [CombatChanged(next.combat)] else []
  }

  function Removals(walk: seq<MapPosition>, n: nat, current: Tiles): seq<WorldEvent>
    requires n <= |walk|
  {
    if n == 0 then []
    else Removals(walk, n - 1, current) + if walk[n - 1] in current then [] else [TileRemoved(walk[n - 1])]
  }

  predicate Redrawn(p: MapPosition, before: Tiles, current: Tiles) {
    p in current && (p !in before || Identities(before[p]) != Identities(current[p]))
  }

  function Upserts(walk: seq<MapPosition>, n: nat, before: Tiles, current: Tiles): seq<WorldEvent>
    requires n <= |walk| && forall i :: 0 <= i < |walk| ==> walk[i] in current
  {
    if n == 0 then []
    else
      var p := walk[n - 1];
      Upserts(walk, n - 1, before, current) + if Redrawn(p, before, current) then [TileUpserted(p, current[p])] else []
  }

  function CreatureEvent(id: quad, before: map<quad, CreatureView>, now: CreatureView, local: quad): seq<WorldEvent> {
    if id !in before then [CreatureAppeared(id, now.name, now.position, now.direction, id == local)]
    else if before[id].position != now.position || before[id].direction != now.direction
    then [CreatureMoved(id, now.name, before[id].position, now.position, now.direction, id == local)]
    else []
  }

  function CreatureEvents(
      walk: seq<quad>, n: nat, before: map<quad, CreatureView>, visible: map<quad, CreatureView>,
      local: quad): seq<WorldEvent>
    requires n <= |walk| && forall i :: 0 <= i < |walk| ==> walk[i] in visible
  {
    if n == 0 then []
    else
      CreatureEvents(walk, n - 1, before, visible, local)
      + CreatureEvent(walk[n - 1], before, visible[walk[n - 1]], local)
  }

  function Vanishings(
      walk: seq<quad>, n: nat, before: map<quad, CreatureView>, visible: map<quad, CreatureView>,
      local: quad): seq<WorldEvent>
    requires n <= |walk| && forall i :: 0 <= i < |walk| ==> walk[i] in before
  {
    if n == 0 then []
    else
      var id := walk[n - 1];
      Vanishings(walk, n - 1, before, visible, local)
      + if id in visible then [] else [CreatureVanished(id, before[id].name, before[id].position, id == local)]
  }

  function HeadEvents(view: View, next: M.State): seq<WorldEvent> {
    IdentityEvents(view, next) + AnchorEvents(view, next) + CombatEvents(view, next)
  }

  lemma WalksCover(tiles: Tiles, creatures: map<quad, CreatureView>)
    ensures forall i :: 0 <= i < |Fields(tiles)| ==> Fields(tiles)[i] in tiles
    ensures forall i :: 0 <= i < |Ids(creatures)| ==> Ids(creatures)[i] in creatures
  {
    var fields, ids := Fields(tiles), Ids(creatures);
    assert forall i :: 0 <= i < |fields| ==> fields[i] in fields;
    assert forall i :: 0 <= i < |ids| ==> ids[i] in ids;
  }

  /** Identity, anchor, combat, removed fields, redrawn fields, creatures, vanished creatures. */
  function TileEvents(before: Tiles, current: Tiles): seq<WorldEvent> {
    WalksCover(current, map[]);
    Removals(Fields(before), |Fields(before)|, current) + Upserts(Fields(current), |Fields(current)|, before, current)
  }

  function BeingEvents(
      before: map<quad, CreatureView>, visible: map<quad, CreatureView>, local: quad): seq<WorldEvent>
  {
    WalksCover(map[], visible);
    WalksCover(map[], before);
    CreatureEvents(Ids(visible), |Ids(visible)|, before, visible, local)
      + Vanishings(Ids(before), |Ids(before)|, before, visible, local)
  }

  function Events(view: View, next: M.State): seq<WorldEvent> {
    if !next.mapInitialized then []
    else
      HeadEvents(view, next) + TileEvents(view.tiles, Current(next.floors))
      + BeingEvents(view.creatures, Visible(Current(next.floors), next.known), LocalAfter(view, next))
  }

  function After(view: View, next: M.State): View {
    if !next.mapInitialized then view
    else View(true, LocalAfter(view, next), next.anchor, Current(next.floors),
      Visible(Current(next.floors), next.known), next.combat)
  }

  // ---- the class ---------------------------------------------------------------------------------

  class WorldView {
    var initialised: bool
    var localCreature: quad
    var anchor: MapPosition
    var tiles: Tiles
    var creatures: map<quad, CreatureView>
    var combat: M.Combat

    function Held(): View
      reads this
    {
      View(initialised, localCreature, anchor, tiles, creatures, combat)
    }

    constructor ()
      ensures Held() == UNSEEN
    {
      initialised, localCreature, anchor, tiles, creatures, combat := false, 0, M.ORIGIN, map[], map[], NO_COMBAT;
    }

    method Reset()
      modifies this
      ensures Held() == UNSEEN
    {
      initialised, localCreature, anchor, tiles, creatures, combat := false, 0, M.ORIGIN, map[], map[], NO_COMBAT;
    }

    method Diff(next: M.State) returns (events: seq<WorldEvent>)
      modifies this
      ensures events == Events(old(Held()), next)
      ensures Held() == After(old(Held()), next)
    {
      hide TileEvents, BeingEvents, Current, Visible;
      events := [];
      if !next.mapInitialized { return; }
      events := Introduce(next);
      var current := Collect(next.floors);
      var drawn := Redraw(current);
      tiles := current;
      var visible := See(next.known);
      var moved := Follow(visible);
      events := events + drawn + moved;
      creatures := visible;
      initialised := true;
    }

    /** Identity first, then the anchor, then the combat record. */
    method Introduce(next: M.State) returns (events: seq<WorldEvent>)
      modifies this`localCreature, this`anchor, this`combat
      ensures events == HeadEvents(old(Held()), next)
      ensures localCreature == LocalAfter(old(Held()), next) && anchor == next.anchor && combat == next.combat
    {
      var identity, moved, fought: seq<WorldEvent> := [], [], [];
      if next.localCreature != 0 && next.localCreature != localCreature {
        localCreature := next.localCreature;
        identity := if localCreature in next.known
          then [LocalPlayerIdentified(localCreature, next.known[localCreature].name, next.known[localCreature].position,
            next.known[localCreature].direction)]
          else [LocalPlayerIdentified(localCreature, [], M.ORIGIN, 0)];
      }
      if !initialised || anchor != next.anchor {
        moved := [AnchorMoved(anchor, next.anchor)];
        anchor := next.anchor;
      }
      if combat != next.combat {
        fought := [CombatChanged(next.combat)];
        combat := next.combat;
      }
      events := identity + moved + fought;
    }

    method Collect(floors: seq<MapFloor>) returns (current: Tiles)
      ensures current == Current(floors)
    {
      current := map[];
      for i := 0 to |floors|
        invariant current == FloorTiles(floors, i)
      {
        ghost var before := current;
        for j := 0 to |floors[i].tiles|
          invariant current == TilesOf(floors[i].tiles, j, before)
        {
          current := current[floors[i].tiles[j].position := floors[i].tiles[j].things];
        }
      }
    }

    /** Removals first, so that a consumer never holds two things on one field. */
    method Redraw(current: Tiles) returns (events: seq<WorldEvent>)
      ensures events == TileEvents(tiles, current)
    {
      WalksCover(current, map[]);
      events := Remove(current, Fields(tiles));
      var upserts := Upsert(current, Fields(current));
      events := events + upserts;
    }

    method Remove(current: Tiles, walk: seq<MapPosition>) returns (events: seq<WorldEvent>)
      ensures events == Removals(walk, |walk|, current)
    {
      events := [];
      for i := 0 to |walk|
        invariant events == Removals(walk, i, current)
      {
        var event := if walk[i] in current then [] else [TileRemoved(walk[i])];
        events := events + event;
      }
    }

    method Upsert(current: Tiles, walk: seq<MapPosition>) returns (events: seq<WorldEvent>)
      requires forall i :: 0 <= i < |walk| ==> walk[i] in current
      ensures events == Upserts(walk, |walk|, tiles, current)
    {
      events := [];
      for i := 0 to |walk|
        invariant events == Upserts(walk, i, tiles, current)
      {
        var redrawn := IsRedrawn(walk[i], current);
        var event := if redrawn then [TileUpserted(walk[i], current[walk[i]])] else [];
        events := events + event;
      }
    }

    method IsRedrawn(p: MapPosition, current: Tiles) returns (redrawn: bool)
      requires p in current
      ensures redrawn <==> Redrawn(p, tiles, current)
    {
      if p !in tiles { return true; }
      var same := SameStack(tiles[p], current[p]);
      return !same;
    }

    /** Only creatures standing on a stored tile are present. */
    method See(known: map<quad, M.CreatureRecord>) returns (visible: map<quad, CreatureView>)
      ensures visible == Visible(tiles, known)
    {
      hide SeenOn, Fields;
      var walk := Fields(tiles);
      WalksCover(tiles, map[]);
      visible := map[];
      for i := 0 to |walk|
        invariant visible == SeenFrom(tiles, walk, i, known)
      {
        visible := SeeOn(tiles[walk[i]], walk[i], known, visible);
      }
    }

    method SeeOn(
        things: seq<MapThing>, p: MapPosition, known: map<quad, M.CreatureRecord>, before: map<quad, CreatureView>)
      returns (visible: map<quad, CreatureView>)
      ensures visible == SeenOn(things, p, |things|, known, before)
    {
      hide Seen;
      visible := before;
      for j := 0 to |things|
        invariant visible == SeenOn(things, p, j, known, before)
      {
        if things[j].Creature? {
          var creature := things[j].creature;
          visible := visible[creature.id := Seen(creature, p, known)];
        }
      }
    }

    method Follow(visible: map<quad, CreatureView>) returns (events: seq<WorldEvent>)
      ensures events == BeingEvents(creatures, visible, localCreature)
    {
      WalksCover(map[], visible);
      WalksCover(map[], creatures);
      events := FollowVisible(visible, Ids(visible));
      var vanished := FollowVanished(visible, Ids(creatures));
      events := events + vanished;
    }

    method FollowVisible(visible: map<quad, CreatureView>, walk: seq<quad>) returns (events: seq<WorldEvent>)
      requires forall i :: 0 <= i < |walk| ==> walk[i] in visible
      ensures events == CreatureEvents(walk, |walk|, creatures, visible, localCreature)
    {
      events := [];
      for i := 0 to |walk|
        invariant events == CreatureEvents(walk, i, creatures, visible, localCreature)
      {
        var event := CreatureChange(walk[i], visible[walk[i]]);
        events := events + event;
      }
    }

    /** A turn is a move to the same field. */
    method CreatureChange(id: quad, now: CreatureView) returns (event: seq<WorldEvent>)
      ensures event == CreatureEvent(id, creatures, now, localCreature)
    {
      if id !in creatures {
        event := [CreatureAppeared(id, now.name, now.position, now.direction, id == localCreature)];
      } else if creatures[id].position != now.position {
        event := [CreatureMoved(id, now.name, creatures[id].position, now.position, now.direction,
          id == localCreature)];
      } else if creatures[id].direction != now.direction {
        event := [CreatureMoved(id, now.name, creatures[id].position, now.position, now.direction,
          id == localCreature)];
      } else {
        event := [];
      }
    }

    method FollowVanished(visible: map<quad, CreatureView>, walk: seq<quad>) returns (events: seq<WorldEvent>)
      requires forall i :: 0 <= i < |walk| ==> walk[i] in creatures
      ensures events == Vanishings(walk, |walk|, creatures, visible, localCreature)
    {
      events := [];
      for i := 0 to |walk|
        invariant events == Vanishings(walk, i, creatures, visible, localCreature)
      {
        var id := walk[i];
        var event := if id in visible then []
          else [CreatureVanished(id, creatures[id].name, creatures[id].position, id == localCreature)];
        events := events + event;
      }
    }
  }

  // ---- the consumer --------------------------------------------------------------------------------

  datatype Pose = Pose(position: MapPosition, direction: byte)

  /** What a presentation layer holds that only ever applies events. */
  datatype Scene = Scene(local: quad, anchor: MapPosition, combat: M.Combat, tiles: Tiles, creatures: map<quad, Pose>)

  const BLANK := Scene(0, M.ORIGIN, NO_COMBAT, map[], map[])

  function React(scene: Scene, event: WorldEvent): Scene {
    match event
    case LocalPlayerIdentified(id, _, _, _) => scene.(local := id)
    case AnchorMoved(_, position) => scene.(anchor := position)
    case CombatChanged(combat) => scene.(combat := combat)
    case TileRemoved(position) => scene.(tiles := scene.tiles - {position})
    case TileUpserted(position, things) => scene.(tiles := scene.tiles[position := things])
    case CreatureAppeared(id, _, position, direction, _)
      => scene.(creatures := scene.creatures[id := Pose(position, direction)])
    case CreatureMoved(id, _, _, position, direction, _)
      => scene.(creatures := scene.creatures[id := Pose(position, direction)])
    case CreatureVanished(id, _, _, _) => scene.(creatures := scene.creatures - {id})
  }

  function Replay(scene: Scene, events: seq<WorldEvent>): Scene {
    if events == [] then scene else React(Replay(scene, events[..|events| - 1]), events[|events| - 1])
  }

  lemma {:induction false} ReplayBoth(scene: Scene, a: seq<WorldEvent>, b: seq<WorldEvent>)
    ensures Replay(scene, a + b) == Replay(Replay(scene, a), b)
    decreases |b|
  {
    hide React;
    if b == [] {
      assert a + b == a;
    } else {
      ReplayBoth(scene, a, b[..|b| - 1]);
      assert (a + b)[..|a + b| - 1] == a + b[..|b| - 1];
    }
  }

  lemma ReplayPush(scene: Scene, events: seq<WorldEvent>, event: WorldEvent)
    ensures Replay(scene, events + [event]) == React(Replay(scene, events), event)
  {
    hide React;
    assert (events + [event])[..|events|] == events;
  }

  lemma ReplayNone(scene: Scene)
    ensures Replay(scene, []) == scene
  {
  }

  lemma ReplayOne(scene: Scene, event: WorldEvent)
    ensures Replay(scene, [event]) == React(scene, event)
    ensures Replay(scene, []) == scene
  {
    hide React;
    assert [event][..0] == [];
    assert Replay(scene, [event][..0]) == scene;
  }

  ghost predicate TilesAgree(drawn: Tiles, tiles: Tiles) {
    drawn.Keys == tiles.Keys && forall p :: p in tiles ==> Identities(drawn[p]) == Identities(tiles[p])
  }

  ghost predicate PosesAgree(poses: map<quad, Pose>, creatures: map<quad, CreatureView>) {
    poses.Keys == creatures.Keys
    && forall id: quad :: id in creatures ==> poses[id] == Pose(creatures[id].position, creatures[id].direction)
  }

  /** The consumer draws what the view remembers having announced. */
  ghost predicate Agrees(scene: Scene, view: View) {
    && scene.local == view.local && scene.anchor == view.anchor && scene.combat == view.combat
    && TilesAgree(scene.tiles, view.tiles) && PosesAgree(scene.creatures, view.creatures)
  }

  // ---- replaying fields -------------------------------------------------------------------------------

  /** `x` is one of the first `n` of the walk. */
  predicate Among<T(==)>(x: T, walk: seq<T>, n: nat)
    requires n <= |walk|
  {
    n > 0 && (walk[n - 1] == x || Among(x, walk, n - 1))
  }

  lemma {:induction false} AmongMeans<T>(x: T, walk: seq<T>, n: nat)
    requires n <= |walk|
    ensures Among(x, walk, n) <==> exists i :: 0 <= i < n && walk[i] == x
  {
    if n > 0 { AmongMeans(x, walk, n - 1); }
  }

  lemma AmongAll<T>(x: T, walk: seq<T>)
    ensures Among(x, walk, |walk|) <==> x in walk
  {
    AmongMeans(x, walk, |walk|);
  }

  function At<K, V>(m: map<K, V>, k: K): Option<V> {
    if k in m then Some(m[k]) else None
  }

  lemma {:induction false} RemovalsReplay(scene: Scene, walk: seq<MapPosition>, n: nat, current: Tiles, p: MapPosition)
    requires n <= |walk|
    ensures var after := Replay(scene, Removals(walk, n, current));
      && after == scene.(tiles := after.tiles)
      && At(after.tiles, p) == if Among(p, walk, n) && p !in current then None else At(scene.tiles, p)
    decreases n
  {
    hide Replay;
    if n == 0 {
      ReplayNone(scene);
    } else {
      RemovalsReplay(scene, walk, n - 1, current, p);
      var earlier := Removals(walk, n - 1, current);
      assert earlier + [] == earlier;
      ReplayPush(scene, earlier, TileRemoved(walk[n - 1]));
    }
  }

  lemma {:induction false} UpsertsReplay(
      scene: Scene, walk: seq<MapPosition>, n: nat, before: Tiles, current: Tiles, p: MapPosition)
    requires n <= |walk| && forall i :: 0 <= i < |walk| ==> walk[i] in current
    ensures var after := Replay(scene, Upserts(walk, n, before, current));
      && after == scene.(tiles := after.tiles)
      && At(after.tiles, p) == if Among(p, walk, n)
      && Redrawn(p, before, current) then At(current, p) else At(scene.tiles, p)
    decreases n
  {
    hide Redrawn, Replay;
    if n == 0 {
      ReplayNone(scene);
    } else {
      UpsertsReplay(scene, walk, n - 1, before, current, p);
      var earlier := Upserts(walk, n - 1, before, current);
      assert earlier + [] == earlier;
      ReplayPush(scene, earlier, TileUpserted(walk[n - 1], current[walk[n - 1]]));
    }
  }

  lemma TileEventsReplay(scene: Scene, before: Tiles, current: Tiles)
    requires TilesAgree(scene.tiles, before)
    ensures var after := Replay(scene, TileEvents(before, current));
      after == scene.(tiles := after.tiles) && TilesAgree(after.tiles, current)
  {
    hide Replay, Removals, Upserts, Identities, TilesAgree, Redrawn, Fields;
    WalksCover(current, map[]);
    var gone, walk := Fields(before), Fields(current);
    var removals, upserts := Removals(gone, |gone|, current), Upserts(walk, |walk|, before, current);
    ReplayBoth(scene, removals, upserts);
    var cleared := Replay(scene, removals);
    var after := Replay(cleared, upserts);
    RemovalsReplay(scene, gone, |gone|, current, M.ORIGIN);
    UpsertsReplay(cleared, walk, |walk|, before, current, M.ORIGIN);
    forall p ensures FieldAgrees(after.tiles, current, p) {
      RemovalsReplay(scene, gone, |gone|, current, p);
      UpsertsReplay(cleared, walk, |walk|, before, current, p);
      AmongAll(p, gone);
      AmongAll(p, walk);
      FieldFollows(scene.tiles, after.tiles, before, current, p);
    }
    FieldsAgree(after.tiles, current);
  }

  predicate FieldAgrees(drawn: Tiles, tiles: Tiles, p: MapPosition) {
    (p in drawn <==> p in tiles) && (p in tiles ==> Identities(drawn[p]) == Identities(tiles[p]))
  }

  lemma FieldFollows(drawn: Tiles, redrawn: Tiles, before: Tiles, current: Tiles, p: MapPosition)
    requires TilesAgree(drawn, before)
    requires At(redrawn, p) ==
      if p in current && Redrawn(p, before, current) then At(current, p) else if p in before && p !in current then None
        else At(drawn, p)
    ensures FieldAgrees(redrawn, current, p)
  {
    hide Identities;
  }

  lemma FieldsAgree(drawn: Tiles, tiles: Tiles)
    requires forall p :: FieldAgrees(drawn, tiles, p)
    ensures TilesAgree(drawn, tiles)
  {
    hide Identities;
    forall p ensures (p in drawn <==> p in tiles) && (p in tiles ==> Identities(drawn[p]) == Identities(tiles[p])) {
      assert FieldAgrees(drawn, tiles, p);
    }
  }

  // ---- replaying creatures -----------------------------------------------------------------------------

  function PoseOf(view: CreatureView): Pose {
    Pose(view.position, view.direction)
  }

  function PoseAt(creatures: map<quad, CreatureView>, id: quad): Option<Pose> {
    if id in creatures then Some(PoseOf(creatures[id])) else None
  }

  predicate Repositioned(id: quad, before: map<quad, CreatureView>, visible: map<quad, CreatureView>) {
    id in visible && PoseAt(before, id) != PoseAt(visible, id)
  }

  /** An event is emitted for exactly the creatures that appear or change place or facing. */
  lemma CreatureEventPose(
      scene: Scene, events: seq<WorldEvent>, id: quad, before: map<quad, CreatureView>,
      visible: map<quad, CreatureView>, local: quad)
    requires id in visible
    ensures var scene' := Replay(scene, events);
      Replay(scene, events + CreatureEvent(id, before, visible[id], local))
        == if Repositioned(id, before, visible) then scene'.(creatures := scene'.creatures[id := PoseOf(visible[id])])
          else scene'
  {
    hide Replay;
    var event := CreatureEvent(id, before, visible[id], local);
    if event == [] {
      assert events + event == events;
    } else {
      assert event == [event[0]];
      ReplayPush(scene, events, event[0]);
    }
  }

  lemma {:induction false} CreatureEventsReplay(
      scene: Scene, walk: seq<quad>, n: nat, before: map<quad, CreatureView>, visible: map<quad, CreatureView>,
      local: quad, id: quad)
    requires n <= |walk| && forall i :: 0 <= i < |walk| ==> walk[i] in visible
    ensures var after := Replay(scene, CreatureEvents(walk, n, before, visible, local));
      && after == scene.(creatures := after.creatures)
      && At(after.creatures, id)
         == if Among(id, walk, n) && Repositioned(id, before, visible) then PoseAt(visible, id)
           else At(scene.creatures, id)
    decreases n
  {
    hide Replay, Repositioned, CreatureEvent;
    if n == 0 {
      ReplayNone(scene);
    } else {
      CreatureEventsReplay(scene, walk, n - 1, before, visible, local, id);
      CreatureEventPose(scene, CreatureEvents(walk, n - 1, before, visible, local), walk[n - 1], before, visible,
        local);
    }
  }

  lemma {:induction false} VanishingsReplay(
      scene: Scene, walk: seq<quad>, n: nat, before: map<quad, CreatureView>, visible: map<quad, CreatureView>,
      local: quad, id: quad)
    requires n <= |walk| && forall i :: 0 <= i < |walk| ==> walk[i] in before
    ensures var after := Replay(scene, Vanishings(walk, n, before, visible, local));
      && after == scene.(creatures := after.creatures)
      && At(after.creatures, id) == if Among(id, walk, n) && id !in visible then None else At(scene.creatures, id)
    decreases n
  {
    hide Replay;
    if n == 0 {
      ReplayNone(scene);
    } else {
      VanishingsReplay(scene, walk, n - 1, before, visible, local, id);
      var last := walk[n - 1];
      var earlier := Vanishings(walk, n - 1, before, visible, local);
      assert earlier + [] == earlier;
      ReplayPush(scene, earlier,
        CreatureVanished(last, before[last].name, before[last].position, last == local));
    }
  }

  lemma BeingEventsReplay(scene: Scene, before: map<quad, CreatureView>, visible: map<quad, CreatureView>, local: quad)
    requires PosesAgree(scene.creatures, before)
    ensures var after := Replay(scene, BeingEvents(before, visible, local));
      after == scene.(creatures := after.creatures) && PosesAgree(after.creatures, visible)
  {
    hide Replay, CreatureEvents, Vanishings, PosesAgree, Repositioned, Ids;
    WalksCover(map[], visible);
    WalksCover(map[], before);
    var walk, gone := Ids(visible), Ids(before);
    var moves, vanishings := CreatureEvents(walk, |walk|, before, visible, local),
      Vanishings(gone, |gone|, before, visible, local);
    ReplayBoth(scene, moves, vanishings);
    var moved := Replay(scene, moves);
    var after := Replay(moved, vanishings);
    CreatureEventsReplay(scene, walk, |walk|, before, visible, local, 0);
    VanishingsReplay(moved, gone, |gone|, before, visible, local, 0);
    forall id: quad ensures At(after.creatures, id) == PoseAt(visible, id) {
      CreatureEventsReplay(scene, walk, |walk|, before, visible, local, id);
      VanishingsReplay(moved, gone, |gone|, before, visible, local, id);
      AmongAll(id, walk);
      AmongAll(id, gone);
      PoseFollows(scene.creatures, after.creatures, before, visible, id);
    }
    PosesFollow(after.creatures, visible);
  }

  lemma PoseFollows(
      poses: map<quad, Pose>, posed: map<quad, Pose>, before: map<quad, CreatureView>, visible: map<quad, CreatureView>,
      id: quad)
    requires PosesAgree(poses, before)
    requires At(posed, id) ==
      if id in before && id !in visible then None else if id in visible
        && Repositioned(id, before, visible) then PoseAt(visible, id) else At(poses, id)
    ensures At(posed, id) == PoseAt(visible, id)
  {
  }

  lemma PosesFollow(poses: map<quad, Pose>, creatures: map<quad, CreatureView>)
    requires forall id: quad :: At(poses, id) == PoseAt(creatures, id)
    ensures PosesAgree(poses, creatures)
  {
    forall id: quad ensures (id in poses <==> id in creatures)
      && (id in creatures ==> poses[id] == PoseOf(creatures[id])) {
      assert At(poses, id) == PoseAt(creatures, id);
    }
  }

  lemma HeadEventsReplay(scene: Scene, view: View, next: M.State)
    requires scene.local == view.local && scene.anchor == view.anchor && scene.combat == view.combat
    ensures Replay(scene, HeadEvents(view, next))
      == scene.(local := LocalAfter(view, next), anchor := next.anchor, combat := next.combat)
  {
    var identity, moved, fought := IdentityEvents(view, next), AnchorEvents(view, next), CombatEvents(view, next);
    hide Replay;
    ReplayBoth(scene, identity + moved, fought);
    ReplayBoth(scene, identity, moved);
    var none := TileRemoved(M.ORIGIN);
    var first := Replay(scene, identity);
    ReplayOne(scene, if identity == [] then none else identity[0]);
    ReplayOne(first, if moved == [] then none else moved[0]);
    ReplayOne(Replay(first, moved), if fought == [] then none else fought[0]);
    assert identity == [] || identity == [identity[0]];
    assert moved == [] || moved == [moved[0]];
    assert fought == [] || fought == [fought[0]];
  }

  /** One diff, replayed, takes what the consumer draws from the old view to the new one. */
  lemma DiffReplays(scene: Scene, view: View, next: M.State)
    requires Agrees(scene, view)
    ensures Agrees(Replay(scene, Events(view, next)), After(view, next))
  {
    hide Replay, HeadEvents, TileEvents, BeingEvents, Current, Visible, TilesAgree, PosesAgree;
    if next.mapInitialized {
      var current := Current(next.floors);
      var head, tiles := HeadEvents(view, next), TileEvents(view.tiles, current);
      var beings := BeingEvents(view.creatures, Visible(current, next.known), LocalAfter(view, next));
      ReplayBoth(scene, head + tiles, beings);
      ReplayBoth(scene, head, tiles);
      HeadEventsReplay(scene, view, next);
      var introduced := Replay(scene, head);
      TileEventsReplay(introduced, view.tiles, current);
      BeingEventsReplay(Replay(introduced, tiles), view.creatures, Visible(current, next.known),
        LocalAfter(view, next));
    } else {
      ReplayOne(scene, TileRemoved(M.ORIGIN));
    }
  }

  // ---- whole runs ------------------------------------------------------------------------------------------

  function ViewAfter(view: View, states: seq<M.State>): View
    decreases |states|
  {
    if states == [] then view else ViewAfter(After(view, states[0]), states[1..])
  }

  function SceneAfter(scene: Scene, view: View, states: seq<M.State>): Scene
    decreases |states|
  {
    if states == [] then scene else SceneAfter(Replay(scene, Events(view, states[0])), After(view, states[0]),
      states[1..])
  }

  lemma {:induction false} RunReplays(scene: Scene, view: View, states: seq<M.State>)
    requires Agrees(scene, view)
    ensures Agrees(SceneAfter(scene, view, states), ViewAfter(view, states))
    decreases |states|
  {
    hide Agrees, Replay, Events, After;
    if states != [] {
      DiffReplays(scene, view, states[0]);
      RunReplays(Replay(scene, Events(view, states[0])), After(view, states[0]), states[1..]);
    }
  }

  lemma {:induction false} LastStateShows(view: View, states: seq<M.State>)
    requires states != [] && states[|states| - 1].mapInitialized
    ensures var last := states[|states| - 1];
      var shown := ViewAfter(view, states);
      shown.tiles == Current(last.floors) && shown.creatures == Visible(Current(last.floors), last.known)
      && shown.anchor == last.anchor && shown.combat == last.combat
      && (last.localCreature != 0 ==> shown.local == last.localCreature)
    decreases |states|
  {
    hide Current, Visible;
    if |states| == 1 {
      assert states[1..] == [];
    } else {
      LastStateShows(After(view, states[0]), states[1..]);
    }
  }

  /** Replaying the events of any run of diffs from a blank scene rebuilds the last state. */
  lemma RunRebuildsLastState(states: seq<M.State>)
    requires states != [] && states[|states| - 1].mapInitialized
    ensures var last := states[|states| - 1];
      var scene := SceneAfter(BLANK, UNSEEN, states);
      && TilesAgree(scene.tiles, Current(last.floors))
      && PosesAgree(scene.creatures, Visible(Current(last.floors), last.known))
      && scene.anchor == last.anchor && scene.combat == last.combat
      && (last.localCreature != 0 ==> scene.local == last.localCreature)
  {
    hide SceneAfter, ViewAfter, Current, Visible, TilesAgree, PosesAgree;
    assert TilesAgree(map[], map[]) && PosesAgree(map[], map[]) by { NothingAgrees(); }
    RunReplays(BLANK, UNSEEN, states);
    LastStateShows(UNSEEN, states);
  }

  lemma NothingAgrees()
    ensures TilesAgree(map[], map[]) && PosesAgree(map[], map[])
  {
  }

  // ---- when nothing is emitted --------------------------------------------------------------------------------

  lemma {:induction false} NoRemovals(walk: seq<MapPosition>, n: nat, current: Tiles)
    requires n <= |walk|
    ensures Removals(walk, n, current) == [] <==> forall i :: 0 <= i < n ==> walk[i] in current
  {
    if n > 0 { NoRemovals(walk, n - 1, current); }
  }

  lemma {:induction false} NoUpserts(walk: seq<MapPosition>, n: nat, before: Tiles, current: Tiles)
    requires n <= |walk| && forall i :: 0 <= i < |walk| ==> walk[i] in current
    ensures Upserts(walk, n, before, current) == [] <==> forall i :: 0 <= i < n ==> !Redrawn(walk[i], before, current)
  {
    hide Redrawn;
    if n > 0 { NoUpserts(walk, n - 1, before, current); }
  }

  lemma {:induction false} NoCreatureEvents(
      walk: seq<quad>, n: nat, before: map<quad, CreatureView>, visible: map<quad, CreatureView>, local: quad)
    requires n <= |walk| && forall i :: 0 <= i < |walk| ==> walk[i] in visible
    ensures CreatureEvents(walk, n, before, visible, local) == [] <==> forall i :: 0 <= i < n ==>
      !Repositioned(walk[i], before, visible)
  {
    hide Repositioned, CreatureEvent;
    if n > 0 {
      NoCreatureEvents(walk, n - 1, before, visible, local);
      assert CreatureEvent(walk[n - 1], before, visible[walk[n - 1]], local) == [] <==>
        !Repositioned(walk[n - 1], before, visible) by {
        CreatureEventIsNone(walk[n - 1], before, visible, local);
      }
    }
  }

  lemma CreatureEventIsNone(id: quad, before: map<quad, CreatureView>, visible: map<quad, CreatureView>, local: quad)
    requires id in visible
    ensures CreatureEvent(id, before, visible[id], local) == [] <==> !Repositioned(id, before, visible)
  {
  }

  lemma {:induction false} NoVanishings(
      walk: seq<quad>, n: nat, before: map<quad, CreatureView>, visible: map<quad, CreatureView>, local: quad)
    requires n <= |walk| && forall i :: 0 <= i < |walk| ==> walk[i] in before
    ensures Vanishings(walk, n, before, visible, local) == [] <==> forall i :: 0 <= i < n ==> walk[i] in visible
  {
    if n > 0 { NoVanishings(walk, n - 1, before, visible, local); }
  }

  ghost predicate SamePoses(a: map<quad, CreatureView>, b: map<quad, CreatureView>) {
    forall id: quad :: PoseAt(a, id) == PoseAt(b, id)
  }

  lemma NoTileEvents(before: Tiles, current: Tiles)
    ensures TileEvents(before, current) == [] <==> TilesAgree(before, current)
  {
    hide Removals, Upserts, Identities, Fields;
    WalksCover(before, map[]);
    WalksCover(current, map[]);
    var gone, walk := Fields(before), Fields(current);
    NoRemovals(gone, |gone|, current);
    NoUpserts(walk, |walk|, before, current);
    if TileEvents(before, current) == [] {
      forall p ensures FieldAgrees(before, current, p) {
        if p in before { assert p in gone; }
        if p in current { assert p in walk; }
      }
      FieldsAgree(before, current);
    }
  }

  lemma NoBeingEvents(before: map<quad, CreatureView>, visible: map<quad, CreatureView>, local: quad)
    ensures BeingEvents(before, visible, local) == [] <==> SamePoses(before, visible)
  {
    hide CreatureEvents, Vanishings, Ids, PoseOf;
    WalksCover(map[], visible);
    WalksCover(map[], before);
    var walk, gone := Ids(visible), Ids(before);
    NoCreatureEvents(walk, |walk|, before, visible, local);
    NoVanishings(gone, |gone|, before, visible, local);
    if BeingEvents(before, visible, local) == [] {
      forall id: quad ensures PoseAt(before, id) == PoseAt(visible, id) {
        if id in before { assert id in gone; }
        if id in visible { assert id in walk; }
      }
    } else if SamePoses(before, visible) {
      forall i | 0 <= i < |gone| ensures gone[i] in visible {
        assert PoseAt(before, gone[i]) == PoseAt(visible, gone[i]);
      }
    }
  }

  /** A diff is silent exactly when the state shows nothing the consumer could draw otherwise. */
  lemma SilentExactly(view: View, next: M.State)
    requires next.mapInitialized
    ensures Events(view, next) == [] <==>
      && view.initialised && !NewLocal(view, next) && view.anchor == next.anchor && view.combat == next.combat
      && TilesAgree(view.tiles, Current(next.floors))
      && SamePoses(view.creatures, Visible(Current(next.floors), next.known))
  {
    hide TileEvents, BeingEvents, TilesAgree, SamePoses, Current, Visible;
    NoTileEvents(view.tiles, Current(next.floors));
    NoBeingEvents(view.creatures, Visible(Current(next.floors), next.known), LocalAfter(view, next));
  }

  /** Diffing the same initialised state again says nothing. */
  lemma SecondDiffIsSilent(view: View, next: M.State)
    ensures Events(After(view, next), next) == []
  {
    hide Current, Visible;
    if next.mapInitialized { SilentExactly(After(view, next), next); }
  }

  // ---- the scene is the mirror -----------------------------------------------------------------------------------

  lemma {:induction false} TilesOfAt(tiles: seq<MapTile>, n: nat, before: Tiles, p: MapPosition)
    requires n <= |tiles| && DistinctTiles(tiles)
    ensures At(TilesOf(tiles, n, before), p)
      == if TileIndex(tiles, p) < n then Some(tiles[TileIndex(tiles, p)].things) else At(before, p)
    decreases n
  {
    if n > 0 {
      TilesOfAt(tiles, n - 1, before, p);
      var k := TileIndex(tiles, p);
      assert !(tiles[n - 1].position == p && k < n - 1);
    }
  }

  lemma {:induction false} FloorTilesAt(floors: seq<MapFloor>, n: nat, p: MapPosition)
    requires n <= |floors| && WellFormed(floors)
    ensures At(FloorTiles(floors, n), p)
      == if FloorIndex(floors, p.z) < n && StackAt(floors, p) != [] then Some(StackAt(floors, p)) else None
    decreases n
  {
    hide TilesOf, TileIndex;
    if n > 0 {
      FloorTilesAt(floors, n - 1, p);
      var floor := floors[n - 1];
      assert GoodFloor(floor) && Occupied(floor.tiles);
      TilesOfAt(floor.tiles, |floor.tiles|, FloorTiles(floors, n - 1), p);
      StackOnLevel(floors, n - 1, p);
    }
  }

  lemma StackOnLevel(floors: seq<MapFloor>, i: nat, p: MapPosition)
    requires i < |floors| && WellFormed(floors)
    ensures floors[i].z == p.z ==> FloorIndex(floors, p.z) == i
    ensures var k := TileIndex(floors[i].tiles, p);
      k < |floors[i].tiles| ==>
        floors[i].z == p.z && StackAt(floors, p) == floors[i].tiles[k].things && StackAt(floors, p) != []
    ensures floors[i].z == p.z && TileIndex(floors[i].tiles, p) == |floors[i].tiles| ==> StackAt(floors, p) == []
  {
    var j := FloorIndex(floors, p.z);
    assert GoodFloor(floors[i]) && Occupied(floors[i].tiles);
    assert !(floors[i].z == p.z && j != i);
  }

  /** The tiles a view collects are the stacks of the mirror. */
  lemma CurrentIsMirror(floors: seq<MapFloor>, p: MapPosition)
    requires WellFormed(floors)
    ensures At(Current(floors), p) == if StackAt(floors, p) != [] then Some(StackAt(floors, p)) else None
  {
    FloorTilesAt(floors, |floors|, p);
  }

  /** `view` is how a creature standing at index `k` of field `p` is seen. */
  predicate SeenAs(
      things: seq<MapThing>, p: MapPosition, k: nat, known: map<quad, M.CreatureRecord>, id: quad, view: CreatureView)
  {
    k < |things| && Creatures.Holds(things, id, k) && view == Seen(things[k].creature, p, known)
  }

  lemma {:induction false} SeenOnMeans(
      things: seq<MapThing>, p: MapPosition, n: nat, known: map<quad, M.CreatureRecord>,
      before: map<quad, CreatureView>, id: quad)
    requires n <= |things|
    ensures var after := SeenOn(things, p, n, known, before);
      if exists k :: 0 <= k < n && Creatures.Holds(things, id, k)
      then id in after && exists k: nat :: SeenAs(things, p, k, known, id, after[id])
      else At(after, id) == At(before, id)
    decreases n
  {
    hide Seen;
    if n > 0 {
      SeenOnMeans(things, p, n - 1, known, before, id);
      var after := SeenOn(things, p, n, known, before);
      if Creatures.Holds(things, id, n - 1) {
        assert SeenAs(things, p, n - 1, known, id, after[id]);
      }
    }
  }

  lemma {:induction false} SeenFromMeans(
      tiles: Tiles, walk: seq<MapPosition>, n: nat, known: map<quad, M.CreatureRecord>, id: quad)
    requires n <= |walk| && forall i :: 0 <= i < |walk| ==> walk[i] in tiles
    ensures var after := SeenFrom(tiles, walk, n, known);
      && (id in after ==> exists i, k: nat :: 0 <= i < n && SeenAs(tiles[walk[i]], walk[i], k, known, id, after[id]))
      && (forall i, k: nat :: 0 <= i < n && k < |tiles[walk[i]]| && Creatures.Holds(tiles[walk[i]], id, k) ==>
        id in after)
    decreases n
  {
    hide SeenOn, SeenAs, Creatures.Holds;
    if n > 0 {
      SeenFromMeans(tiles, walk, n - 1, known, id);
      var p := walk[n - 1];
      SeenOnMeans(tiles[p], p, |tiles[p]|, known, SeenFrom(tiles, walk, n - 1, known), id);
    }
  }

  /** What a consumer should be drawing: the stacks of the mirror, and each creature that
      stands on one, where it stands, facing as its record says. */
  ghost predicate Draws(scene: Scene, floors: seq<MapFloor>, known: map<quad, M.CreatureRecord>) {
    && (forall p :: if StackAt(floors, p) == [] then p !in scene.tiles
                    else p in scene.tiles && Identities(scene.tiles[p]) == Identities(StackAt(floors, p)))
    && (forall id: quad, p, k: nat :: Creatures.StandsAt(floors, id, p, k) ==> id in scene.creatures)
    && (forall id: quad :: id in scene.creatures ==>
      exists p, k: nat :: Standing(floors, known, id, p, k, scene.creatures[id]))
  }

  predicate Standing(
      floors: seq<MapFloor>, known: map<quad, M.CreatureRecord>, id: quad, p: MapPosition, k: nat, pose: Pose)
  {
    Creatures.StandsAt(floors, id, p, k) && pose == PoseOf(Seen(StackAt(floors, p)[k].creature, p, known))
  }

  lemma TilesDrawn(drawn: Tiles, floors: seq<MapFloor>, p: MapPosition)
    requires WellFormed(floors) && TilesAgree(drawn, Current(floors))
    ensures if StackAt(floors, p) == [] then p !in drawn
      else p in drawn && Identities(drawn[p]) == Identities(StackAt(floors, p))
  {
    hide Current, WellFormed, StackAt;
    CurrentIsMirror(floors, p);
  }

  lemma CreatureDrawn(poses: map<quad, Pose>, floors: seq<MapFloor>, known: map<quad, M.CreatureRecord>, id: quad)
    requires WellFormed(floors) && PosesAgree(poses, Visible(Current(floors), known))
    ensures forall p, k: nat :: Creatures.StandsAt(floors, id, p, k) ==> id in poses
    ensures id in poses ==> exists p, k: nat :: Standing(floors, known, id, p, k, poses[id])
  {
    hide Current, WellFormed, StackAt, SeenFrom, Fields, Seen;
    var tiles := Current(floors);
    var walk := Fields(tiles);
    WalksCover(tiles, map[]);
    SeenFromMeans(tiles, walk, |walk|, known, id);
    forall p, k: nat | Creatures.StandsAt(floors, id, p, k) ensures id in poses {
      CurrentIsMirror(floors, p);
      assert p in walk;
    }
    if id in poses {
      var view := SeenFrom(tiles, walk, |walk|, known)[id];
      var i, k: nat :| 0 <= i < |walk| && SeenAs(tiles[walk[i]], walk[i], k, known, id, view);
      CurrentIsMirror(floors, walk[i]);
      assert Standing(floors, known, id, walk[i], k, poses[id]);
    }
  }

  /** Replaying any run of diffs from a blank scene draws the mirror of the last state. */
  lemma RunDrawsMirror(states: seq<M.State>)
    requires states != [] && states[|states| - 1].mapInitialized && WellFormed(states[|states| - 1].floors)
    ensures var last := states[|states| - 1];
      Draws(SceneAfter(BLANK, UNSEEN, states), last.floors, last.known)
  {
    hide SceneAfter, Current, Visible, TilesAgree, PosesAgree, WellFormed, StackAt, Standing;
    var last := states[|states| - 1];
    var scene := SceneAfter(BLANK, UNSEEN, states);
    RunRebuildsLastState(states);
    forall p ensures if StackAt(last.floors, p) == [] then p !in scene.tiles
                     else p in scene.tiles && Identities(scene.tiles[p]) == Identities(StackAt(last.floors, p)) {
      TilesDrawn(scene.tiles, last.floors, p);
    }
    forall id: quad ensures forall p, k: nat :: Creatures.StandsAt(last.floors, id, p, k) ==> id in scene.creatures {
      CreatureDrawn(scene.creatures, last.floors, last.known, id);
    }
    forall id: quad | id in scene.creatures ensures exists p,
      k: nat :: Standing(last.floors, last.known, id, p, k, scene.creatures[id]) {
      CreatureDrawn(scene.creatures, last.floors, last.known, id);
    }
  }
}
