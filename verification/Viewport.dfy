/** Viewport geometry: which floors and fields a terminal anchored at a position sees,
    and what each movement command reveals. */
module Viewport {
  import opened World

  const OFFSET_X := 8
  const OFFSET_Y := 6
  const WIDTH := 18
  const HEIGHT := 14
  const SURFACE_FLOOR := 7
  const MAX_FLOOR := 15

  datatype Direction = North | East | South | West

  datatype Window = Window(player: MapPosition, minX: int, minY: int, width: int, height: int)

  datatype Rect = Rect(minX: int, minY: int, width: nat, height: nat)

  /** A run of floors in emission order; `step == 0` is the empty run. */
  datatype FloorRange = FloorRange(first: int, last: int, step: int)

  const NO_FLOORS := FloorRange(0, 0, 0)

  function WindowAt(anchor: MapPosition): Window {
    Window(anchor, anchor.x - OFFSET_X, anchor.y - OFFSET_Y, WIDTH, HEIGHT)
  }

  function StepPosition(from: MapPosition, direction: Direction): MapPosition {
    match direction
    case North => from.(y := from.y - 1)
    case East => from.(x := from.x + 1)
    case South => from.(y := from.y + 1)
    case West => from.(x := from.x - 1)
  }

  /** A floor change keeps `x + z` and `y + z`: the camera is oblique. */
  function FloorStep(from: MapPosition, up: bool): MapPosition {
    if up then MapPosition(from.x + 1, from.y + 1, from.z - 1)
    else MapPosition(from.x - 1, from.y - 1, from.z + 1)
  }

  function RowRectangle(anchor: MapPosition, direction: Direction): Rect {
    var minX := anchor.x - OFFSET_X;
    var minY := anchor.y - OFFSET_Y;
    match direction
    case North => Rect(minX, minY, WIDTH, 1)
    case South => Rect(minX, minY + HEIGHT - 1, WIDTH, 1)
    case East => Rect(minX + WIDTH - 1, minY, 1, HEIGHT)
    case West => Rect(minX, minY, 1, HEIGHT)
  }

  function FullRectangle(anchor: MapPosition): Rect {
    Rect(anchor.x - OFFSET_X, anchor.y - OFFSET_Y, WIDTH, HEIGHT)
  }

  function ViewportFloorRange(z: int): (range: FloorRange)
    ensures range.step == 1 || range.step == -1
    ensures z <= MAX_FLOOR ==> GoodRange(range)
  {
    if z <= SURFACE_FLOOR then FloorRange(SURFACE_FLOOR, 0, -1)
    else FloorRange(z - 2, if z + 2 < MAX_FLOOR then z + 2 else MAX_FLOOR, 1)
  }

  predicate GoodRange(range: FloorRange) {
    && (range.step == 1 || range.step == -1 || range.step == 0)
    && (range.step != 0 ==> (range.last - range.first) * range.step >= 0)
  }

  function FloorChangeRange(z: int, up: bool): (range: FloorRange)
    ensures GoodRange(range)
  {
    if up then
      if z == SURFACE_FLOOR then FloorRange(5, 0, -1)
      else if z > SURFACE_FLOOR then FloorRange(z - 2, z - 2, -1)
      else NO_FLOORS
    else
      if z == SURFACE_FLOOR + 1 then FloorRange(SURFACE_FLOOR + 1, 10, 1)
      else if z > SURFACE_FLOOR + 1 && z + 2 <= MAX_FLOOR then FloorRange(z + 2, z + 2, 1)
      else NO_FLOORS
  }

  predicate ValidAnchor(anchor: MapPosition) {
    0 <= anchor.z <= MAX_FLOOR
  }

  /** The floors of a range in emission order. */
  function FloorsOf(range: FloorRange): (zs: seq<int>)
    requires GoodRange(range)
    ensures forall z :: z in zs <==> range.step != 0 && InRange(range, z)
    ensures forall i, j :: 0 <= i < j < |zs| ==> if range.step < 0 then zs[i] > zs[j] else zs[i] < zs[j]
    decreases (range.last - range.first) * range.step
  {
    if range.step == 0 then []
    else if range.first == range.last then [range.first]
    else
      var rest := FloorsOf(range.(first := range.first + range.step));
      assert forall j :: 0 <= j < |rest| ==> rest[j] in rest;
      [range.first] + rest
  }

  predicate InRange(range: FloorRange, z: int) {
    if range.first <= range.last then range.first <= z <= range.last
    else range.last <= z <= range.first
  }

  predicate WithinFloorWindow(anchor: MapPosition, p: MapPosition) {
    var offset := anchor.z - p.z;
    var minX := anchor.x - OFFSET_X + offset;
    var minY := anchor.y - OFFSET_Y + offset;
    minX <= p.x < minX + WIDTH && minY <= p.y < minY + HEIGHT
  }

  /** The fields a fresh snapshot at `anchor` covers. */
  predicate InView(anchor: MapPosition, p: MapPosition) {
    InRange(ViewportFloorRange(anchor.z), p.z) && WithinFloorWindow(anchor, p)
  }

  /** `p` lies in `rect` once the rectangle is shifted for the floor of `p`. */
  predicate InShiftedRect(anchor: MapPosition, rect: Rect, p: MapPosition) {
    var offset := anchor.z - p.z;
    rect.minX + offset <= p.x < rect.minX + offset + rect.width
    && rect.minY + offset <= p.y < rect.minY + offset + rect.height
  }

  /** What a row command describes, and what a floor command describes. */
  predicate InRow(anchor: MapPosition, direction: Direction, p: MapPosition) {
    InRange(ViewportFloorRange(anchor.z), p.z) && InShiftedRect(anchor, RowRectangle(anchor, direction), p)
  }

  predicate InNewFloors(anchor: MapPosition, up: bool, p: MapPosition) {
    var range := FloorChangeRange(anchor.z, up);
    range.step != 0 && InRange(range, p.z) && WithinFloorWindow(anchor, p)
  }

  /** One step reveals exactly the new edge: the row command describes every field
      that comes into view, and nothing outside the new view. */
  lemma RowCoversWhatAppears(anchor: MapPosition, direction: Direction)
    ensures var stepped := StepPosition(anchor, direction);
      forall p :: InView(stepped, p) && !InView(anchor, p) <==> InRow(stepped, direction, p)
  {
  }

  /** Across a floor change the fields still in view stay where they were in the window,
      and the floors that were not held are exactly the ones delivered. */
  lemma FloorChangeCoversWhatAppears(anchor: MapPosition, up: bool)
    requires ValidAnchor(anchor) && ValidAnchor(FloorStep(anchor, up))
    ensures var stepped := FloorStep(anchor, up);
      forall p :: InView(stepped, p) && !InView(anchor, p) <==> InNewFloors(stepped, up, p)
    ensures var stepped := FloorStep(anchor, up);
      stepped.x + stepped.z == anchor.x + anchor.z && stepped.y + stepped.z == anchor.y + anchor.z
  {
  }

  /** The floors held before a floor change and the floors it delivers are disjoint and
      together contain every floor of the new range. */
  lemma FloorChangeCompletesRange(z: int, up: bool)
    requires 0 <= z <= MAX_FLOOR
    requires 0 <= (if up then z - 1 else z + 1) <= MAX_FLOOR
    ensures var z' := if up then z - 1 else z + 1;
      var delivered := FloorChangeRange(z', up);
      forall f :: InRange(ViewportFloorRange(z'), f)
        ==> (InRange(ViewportFloorRange(z), f) <==> !(delivered.step != 0 && InRange(delivered, f)))
  {
  }
}
