/** The sector reader of scripts/client/build_wide_world_cache.py at token level: what a list of
    tokens parses to, and that parsing undoes printing for objects nested to any depth. */
module Sector {
  import opened World
  import opened Chunks

  const SECTOR_SIZE := 32

  datatype Token =
    | Number(value: nat) | Word(name: string) | Text(text: string)
    | Open | Close | Comma | Equals | Dash | Colon

  datatype Error = UnexpectedEnd | UnexpectedToken | NotANumber | BadValue | BadOffset | BadField

  datatype Read<+T> = Ok(value: T, at: nat) | Fail(error: Error)

  function Peek(ts: seq<Token>, at: nat): Option<Token> {
    if at < |ts| then Some(ts[at]) else None
  }

  predicate Is(ts: seq<Token>, at: nat, t: Token) {
    at < |ts| && ts[at] == t
  }

  predicate Named(t: Token, name: string) {
    t.Word? && Folded(t.name) == name
  }

  /** An error where a token was needed: the end of the input, or the wrong token. */
  function Missing(ts: seq<Token>, at: nat, error: Error): Error {
    if at < |ts| then error else UnexpectedEnd
  }

  // ---- objects ---------------------------------------------------------------------------------

  /** A braced list: the ids of its own objects, whatever is nested in their attributes. */
  function ReadObjects(ts: seq<Token>, at: nat): (r: Read<seq<nat>>)
    ensures r.Ok? ==> at < r.at <= |ts|
    decreases |ts| - at, 2
  {
    if !Is(ts, at, Open) then Fail(Missing(ts, at, UnexpectedToken)) else ReadList(ts, at + 1, [])
  }

  function ReadList(ts: seq<Token>, at: nat, ids: seq<nat>): (r: Read<seq<nat>>)
    ensures r.Ok? ==> at < r.at <= |ts|
    decreases |ts| - at, 1
  {
    if Is(ts, at, Close) then Ok(ids, at + 1)
    else if at >= |ts| || !ts[at].Number? then Fail(Missing(ts, at, NotANumber))
    else
      match ReadAttributes(ts, at + 1)
      case Fail(error) => Fail(error)
      case Ok(_, next) => ReadList(ts, if Is(ts, next, Comma) then next + 1 else next, ids + [ts[at].value])
  }

  function ReadAttributes(ts: seq<Token>, at: nat): (r: Read<()>)
    ensures r.Ok? ==> at <= r.at <= |ts|
    decreases |ts| - at, 0
  {
    if Is(ts, at, Comma) || Is(ts, at, Close) then Ok((), at)
    else if at >= |ts| then Fail(UnexpectedEnd)
    else if !Is(ts, at + 1, Equals) then Fail(Missing(ts, at + 1, UnexpectedToken))
    else if Named(ts[at], "content") then
      match ReadObjects(ts, at + 2)
      case Fail(error) => Fail(error)
      case Ok(_, next) => ReadAttributes(ts, next)
    else if at + 2 >= |ts| then Fail(UnexpectedEnd)
    else if !ts[at + 2].Number? && !ts[at + 2].Text? then Fail(BadValue)
    else ReadAttributes(ts, at + 3)
  }

  // ---- tiles -------------------------------------------------------------------------------------

  datatype Row = Row(x: int, y: int, z: int, stack: nat, shown: nat, raw: nat)

  datatype Place = Place(sx: int, sy: int, z: int, disguises: map<nat, nat>)

  function Disguised(place: Place, raw: nat): nat {
    if raw in place.disguises then place.disguises[raw] else raw
  }

  function RowFor(place: Place, ox: nat, oy: nat, stack: nat, raw: nat): Row {
    Row(place.sx * SECTOR_SIZE + ox, place.sy * SECTOR_SIZE + oy, place.z, stack, Disguised(place, raw), raw)
  }

  function RowsOf(place: Place, ox: nat, oy: nat, ids: seq<nat>, n: nat): seq<Row>
    requires n <= |ids|
  {
    if n == 0 then []
    else RowsOf(place, ox, oy, ids, n - 1) + [RowFor(place, ox, oy, n - 1, ids[n - 1])]
  }

  /** The next tile begins here. */
  predicate Header(ts: seq<Token>, at: nat) {
    at + 3 < |ts| && ts[at].Number? && ts[at + 1] == Dash && ts[at + 2].Number? && ts[at + 3] == Colon
  }

  predicate IsFlag(t: Token) {
    Named(t, "refresh") || Named(t, "nologout") || Named(t, "protectionzone")
  }

  /** The fields of one tile: flags, and at most one content. */
  function ReadFields(
      ts: seq<Token>, at: nat, place: Place, ox: nat, oy: nat, seen: bool, rows: seq<Row>): (r: Read<seq<Row>>)
    ensures r.Ok? ==> at <= r.at
    decreases |ts| - at
  {
    if at >= |ts| || Header(ts, at) then Ok(rows, at)
    else if ts[at] == Comma || IsFlag(ts[at]) then ReadFields(ts, at + 1, place, ox, oy, seen, rows)
    else if !Named(ts[at], "content") || seen then Fail(BadField)
    else if !Is(ts, at + 1, Equals) then Fail(Missing(ts, at + 1, UnexpectedToken))
    else
      match ReadObjects(ts, at + 2)
      case Fail(error) => Fail(error)
      case Ok(ids, next) => ReadFields(ts, next, place, ox, oy, true, rows + RowsOf(place, ox, oy, ids, |ids|))
  }

  function HeaderError(ts: seq<Token>, at: nat): Option<Error> {
    if at >= |ts| || !ts[at].Number? then Some(Missing(ts, at, NotANumber))
    else if !Is(ts, at + 1, Dash) then Some(Missing(ts, at + 1, UnexpectedToken))
    else if at + 2 >= |ts| || !ts[at + 2].Number? then Some(Missing(ts, at + 2, NotANumber))
    else if !Is(ts, at + 3, Colon) then Some(Missing(ts, at + 3, UnexpectedToken))
    else if ts[at].value >= SECTOR_SIZE || ts[at + 2].value >= SECTOR_SIZE then Some(BadOffset)
    else None
  }

  /** The whole sector: every iteration uses up a token. */
  function ReadTiles(ts: seq<Token>, at: nat, place: Place, rows: seq<Row>): Read<seq<Row>>
    decreases |ts| - at
  {
    if at >= |ts| then Ok(rows, at)
    else if ts[at] == Comma then ReadTiles(ts, at + 1, place, rows)
    else
      match HeaderError(ts, at)
      case Some(error) => Fail(error)
      case None =>
        match ReadFields(ts, at + 4, place, ts[at].value, ts[at + 2].value, false, rows)
        case Fail(error) => Fail(error)
        case Ok(more, next) => ReadTiles(ts, next, place, more)
  }

  // ---- whatever parses stays in its sector -------------------------------------------------------------

  predicate InSector(row: Row, place: Place) {
    && place.sx * SECTOR_SIZE <= row.x < (place.sx + 1) * SECTOR_SIZE
    && place.sy * SECTOR_SIZE <= row.y < (place.sy + 1) * SECTOR_SIZE
    && row.z == place.z && row.shown == Disguised(place, row.raw)
  }

  predicate AllInSector(rows: seq<Row>, place: Place) {
    forall i :: 0 <= i < |rows| ==> InSector(rows[i], place)
  }

  lemma {:induction false} RowsInSector(place: Place, ox: nat, oy: nat, ids: seq<nat>, n: nat)
    requires n <= |ids| && ox < SECTOR_SIZE && oy < SECTOR_SIZE
    ensures AllInSector(RowsOf(place, ox, oy, ids, n), place)
    decreases n
  {
    if n > 0 { RowsInSector(place, ox, oy, ids, n - 1); }
  }

  lemma {:induction false} FieldsInSector(
      ts: seq<Token>, at: nat, place: Place, ox: nat, oy: nat, seen: bool, rows: seq<Row>)
    requires ox < SECTOR_SIZE && oy < SECTOR_SIZE && AllInSector(rows, place)
    ensures var r := ReadFields(ts, at, place, ox, oy, seen, rows);
      r.Ok? ==> AllInSector(r.value, place)
    decreases |ts| - at
  {
    hide ReadObjects, InSector, Header, IsFlag, Named, RowsOf;
    if at < |ts| && !Header(ts, at) {
      if ts[at] == Comma || IsFlag(ts[at]) {
        FieldsInSector(ts, at + 1, place, ox, oy, seen, rows);
      } else if Named(ts[at], "content") && !seen && Is(ts, at + 1, Equals) && ReadObjects(ts, at + 2).Ok? {
        var ids := ReadObjects(ts, at + 2);
        RowsInSector(place, ox, oy, ids.value, |ids.value|);
        FieldsInSector(ts, ids.at, place, ox, oy, true, rows + RowsOf(place, ox, oy, ids.value, |ids.value|));
      }
    }
  }

  /** For arbitrary tokens: every row that comes out lies in the sector, carries its level, and
      shows its disguise. */
  lemma {:induction false} ParsedInSector(ts: seq<Token>, at: nat, place: Place, rows: seq<Row>)
    requires AllInSector(rows, place)
    ensures var r := ReadTiles(ts, at, place, rows);
      r.Ok? ==> AllInSector(r.value, place)
    decreases |ts| - at
  {
    hide ReadFields, InSector;
    if at < |ts| {
      if ts[at] == Comma {
        ParsedInSector(ts, at + 1, place, rows);
      } else if HeaderError(ts, at) == None {
        FieldsInSector(ts, at + 4, place, ts[at].value, ts[at + 2].value, false, rows);
        var fields := ReadFields(ts, at + 4, place, ts[at].value, ts[at + 2].value, false, rows);
        if fields.Ok? { ParsedInSector(ts, fields.at, place, fields.value); }
      }
    }
  }

  // ---- printing ---------------------------------------------------------------------------------------------

  /** A list of objects with attributes; a content attribute holds such a list again. */
  datatype Objs = End | Obj(id: nat, attributes: Attributes, rest: Objs)

  datatype Attributes = Done | Plain(name: Token, value: Token, others: Attributes) | Content(key: string,
    children: Objs, more: Attributes)

  predicate GoodObjs(objs: Objs) {
    match objs
    case End => true
    case Obj(_, attributes, rest) => GoodAttributes(attributes) && GoodObjs(rest)
  }

  predicate GoodAttributes(attributes: Attributes) {
    match attributes
    case Done => true
    case Plain(name, value, others) =>
      !name.Comma? && !name.Close? && !Named(name, "content") && (value.Number? || value.Text?)
      && GoodAttributes(others)
    case Content(key, children, more) => Folded(key) == "content" && GoodObjs(children) && GoodAttributes(more)
  }

  function IdsOf(objs: Objs): seq<nat> {
    match objs
    case End => []
    case Obj(id, _, rest) => [id] + IdsOf(rest)
  }

  function PrintObjects(objs: Objs): seq<Token>
    decreases objs, 1
  {
    [Open] + (PrintList(objs) + [Close])
  }

  function PrintList(objs: Objs): seq<Token>
    decreases objs, 0
  {
    match objs
    case End => []
    case Obj(id, attributes, rest) =>
      [Number(id)] + (PrintAttributes(attributes) + ((if rest.End? then [] else [Comma]) + PrintList(rest)))
  }

  function PrintAttributes(attributes: Attributes): seq<Token>
    decreases attributes, 0
  {
    match attributes
    case Done => []
    case Plain(name, value, others) => [name, Equals, value] + PrintAttributes(others)
    case Content(key, children, more) => [Word(key), Equals] + (PrintObjects(children) + PrintAttributes(more))
  }

  // ---- parsing undoes printing -----------------------------------------------------------------------------------

  lemma Standing(ts: seq<Token>, at: nat, t: Token)
    requires Holds(ts, at, [t])
    ensures at < |ts| && ts[at] == t
  {
    HoldsAt(ts, at, [t], 0);
  }

  predicate Ends(ts: seq<Token>, at: nat) {
    Is(ts, at, Comma) || Is(ts, at, Close)
  }

  lemma {:induction false} AttributesOfPrint(ts: seq<Token>, at: nat, attributes: Attributes)
    requires GoodAttributes(attributes) && Holds(ts, at, PrintAttributes(attributes))
    requires Ends(ts, at + |PrintAttributes(attributes)|)
    ensures ReadAttributes(ts, at) == Ok((), at + |PrintAttributes(attributes)|)
    decreases attributes, 1
  {
    hide Holds, Named, ReadObjects, PrintObjects, ReadAttributes;
    match attributes
    case Done =>
      AttributesEnd(ts, at);
    case Plain(name, value, others) =>
      HoldsBoth(ts, at, [name, Equals, value], PrintAttributes(others));
      ThreeStand(ts, at, name, Equals, value);
      PlainIsSkipped(ts, at);
      AttributesOfPrint(ts, at + 3, others);
    case Content(key, children, more) =>
      HoldsBoth(ts, at, [Word(key), Equals], PrintObjects(children) + PrintAttributes(more));
      TwoStand(ts, at, Word(key), Equals);
      HoldsBoth(ts, at + 2, PrintObjects(children), PrintAttributes(more));
      ObjectsOfPrint(ts, at + 2, children);
      ContentIsNamed(key);
      ContentIsSkipped(ts, at, at + 2 + |PrintObjects(children)|);
      AttributesOfPrint(ts, at + 2 + |PrintObjects(children)|, more);
  }

  lemma AttributesEnd(ts: seq<Token>, at: nat)
    requires Ends(ts, at)
    ensures ReadAttributes(ts, at) == Ok((), at)
  {
  }

  lemma PlainIsSkipped(ts: seq<Token>, at: nat)
    requires at + 2 < |ts| && !Ends(ts, at) && !Named(ts[at], "content")
    requires ts[at + 1] == Equals && (ts[at + 2].Number? || ts[at + 2].Text?)
    ensures ReadAttributes(ts, at) == ReadAttributes(ts, at + 3)
  {
    hide Named;
  }

  lemma ContentIsSkipped(ts: seq<Token>, at: nat, next: nat)
    requires at + 1 < |ts| && !Ends(ts, at) && Named(ts[at], "content") && ts[at + 1] == Equals
    requires ReadObjects(ts, at + 2).Ok? && ReadObjects(ts, at + 2).at == next
    ensures ReadAttributes(ts, at) == ReadAttributes(ts, next)
  {
    hide Named, ReadObjects;
  }

  lemma ContentIsNamed(key: string)
    requires Folded(key) == "content"
    ensures Named(Word(key), "content")
  {
  }

  lemma TwoStand(ts: seq<Token>, at: nat, a: Token, b: Token)
    requires Holds(ts, at, [a, b])
    ensures at + 1 < |ts| && ts[at] == a && ts[at + 1] == b
  {
    HoldsAt(ts, at, [a, b], 0);
    HoldsAt(ts, at, [a, b], 1);
  }

  lemma ThreeStand(ts: seq<Token>, at: nat, a: Token, b: Token, c: Token)
    requires Holds(ts, at, [a, b, c])
    ensures at + 2 < |ts| && ts[at] == a && ts[at + 1] == b && ts[at + 2] == c
  {
    HoldsAt(ts, at, [a, b, c], 0);
    HoldsAt(ts, at, [a, b, c], 1);
    HoldsAt(ts, at, [a, b, c], 2);
  }

  /** A printed list of objects parses to its own ids, in order, however deeply its contents
      nest. */
  lemma {:induction false} ObjectsOfPrint(ts: seq<Token>, at: nat, objs: Objs)
    requires GoodObjs(objs) && Holds(ts, at, PrintObjects(objs))
    ensures ReadObjects(ts, at) == Ok(IdsOf(objs), at + |PrintObjects(objs)|)
    decreases objs, 2
  {
    hide Holds, GoodObjs, ReadList;
    HoldsBoth(ts, at, [Open], PrintList(objs) + [Close]);
    Standing(ts, at, Open);
    ListOfPrint(ts, at + 1, objs, []);
    assert [] + IdsOf(objs) == IdsOf(objs);
  }

  lemma {:induction false} ListOfPrint(ts: seq<Token>, at: nat, objs: Objs, ids: seq<nat>)
    requires GoodObjs(objs) && Holds(ts, at, PrintList(objs) + [Close])
    ensures ReadList(ts, at, ids) == Ok(ids + IdsOf(objs), at + |PrintList(objs)| + 1)
    decreases objs, 1
  {
    hide Holds, GoodAttributes, ReadAttributes, PrintAttributes, ReadList;
    HoldsBoth(ts, at, PrintList(objs), [Close]);
    Standing(ts, at + |PrintList(objs)|, Close);
    match objs
    case End =>
      ListEnds(ts, at, ids);
      assert ids + IdsOf(objs) == ids;
    case Obj(id, attributes, rest) =>
      var printed := PrintAttributes(attributes);
      var separator := if rest.End? then [] else [Comma];
      var next := ObjectStands(ts, at, id, printed, rest);
      AttributesOfPrint(ts, at + 1, attributes);
      ListContinues(ts, at, ids, next);
      TailHolds(ts, next + |separator|, PrintList(rest));
      ListOfPrint(ts, next + |separator|, rest, ids + [id]);
      assert (ids + [id]) + IdsOf(rest) == ids + IdsOf(objs);
  }

  /** One printed object of a list: its number, its attributes, and a comma if more follow. */
  lemma ObjectStands(ts: seq<Token>, at: nat, id: nat, printed: seq<Token>, rest: Objs) returns (next: nat)
    requires var separator := if rest.End? then [] else [Comma];
      var list := [Number(id)] + (printed + (separator + PrintList(rest)));
      Holds(ts, at, list) && Is(ts, at + |list|, Close)
    ensures next == at + 1 + |printed|
    ensures Is(ts, at, Number(id)) && Holds(ts, at + 1, printed) && Ends(ts, next)
    ensures Is(ts, next, Comma) <==> !rest.End?
    ensures Holds(ts, if rest.End? then next else next + 1, PrintList(rest))
  {
    hide Holds;
    var separator := if rest.End? then [] else [Comma];
    var tail := separator + PrintList(rest);
    next := at + 1 + |printed|;
    HoldsBoth(ts, at, [Number(id)], printed + tail);
    Standing(ts, at, Number(id));
    HoldsBoth(ts, at + 1, printed, tail);
    HoldsBoth(ts, next, separator, PrintList(rest));
    if !rest.End? { Standing(ts, next, Comma); }
  }

  lemma ListEnds(ts: seq<Token>, at: nat, ids: seq<nat>)
    requires Is(ts, at, Close)
    ensures ReadList(ts, at, ids) == Ok(ids, at + 1)
  {
  }

  lemma ListContinues(ts: seq<Token>, at: nat, ids: seq<nat>, next: nat)
    requires at < |ts| && ts[at].Number? && ReadAttributes(ts, at + 1) == Ok((), next)
    ensures ReadList(ts, at, ids) == ReadList(ts, if Is(ts, next, Comma) then next + 1 else next, ids + [ts[at].value])
  {
    hide ReadAttributes;
  }

  lemma TailHolds(ts: seq<Token>, at: nat, list: seq<Token>)
    requires Holds(ts, at, list) && Is(ts, at + |list|, Close)
    ensures Holds(ts, at, list + [Close])
  {
    assert ts[at..at + |list| + 1] == ts[at..at + |list|] + [ts[at + |list|]];
  }

  // ---- tiles -------------------------------------------------------------------------------------------------------

  /** What the map holds about one tile. The flags come first, each followed by a comma when
      more is to come. */
  datatype Tile = Tile(ox: nat, oy: nat, flags: seq<Token>, content: Option<Objs>)

  predicate GoodTile(tile: Tile) {
    tile.ox < SECTOR_SIZE && tile.oy < SECTOR_SIZE
    && (forall i :: 0 <= i < |tile.flags| ==> IsFlag(tile.flags[i]))
    && (tile.content.Some? ==> GoodObjs(tile.content.value))
  }

  function PrintFlags(flags: seq<Token>, more: bool): seq<Token> {
    if flags == [] then []
    else if |flags| == 1 && !more then [flags[0]]
    else [flags[0], Comma] + PrintFlags(flags[1..], more)
  }

  function PrintContent(content: Option<Objs>): seq<Token> {
    if content.None? then [] else [Word("Content"), Equals] + PrintObjects(content.value)
  }

  function PrintTile(tile: Tile): seq<Token> {
    [Number(tile.ox), Dash, Number(tile.oy), Colon]
      + (PrintFlags(tile.flags, tile.content.Some?) + PrintContent(tile.content))
  }

  function PrintTiles(tiles: seq<Tile>): seq<Token> {
    if tiles == [] then [] else PrintTile(tiles[0]) + PrintTiles(tiles[1..])
  }

  function TileRows(place: Place, tile: Tile): seq<Row> {
    if tile.content.None? then []
    else RowsOf(place, tile.ox, tile.oy, IdsOf(tile.content.value), |IdsOf(tile.content.value)|)
  }

  function AllRows(place: Place, tiles: seq<Tile>): seq<Row> {
    if tiles == [] then [] else TileRows(place, tiles[0]) + AllRows(place, tiles[1..])
  }

  /** A tile ends at the end of the input or before the header of the next. */
  predicate Stops(ts: seq<Token>, at: nat) {
    at >= |ts| || Header(ts, at)
  }

  lemma {:induction false} FlagsOfPrint(
      ts: seq<Token>, at: nat, flags: seq<Token>, more: bool, place: Place, ox: nat, oy: nat, rows: seq<Row>)
    requires forall i :: 0 <= i < |flags| ==> IsFlag(flags[i])
    requires Holds(ts, at, PrintFlags(flags, more))
    ensures ReadFields(ts, at, place, ox, oy, false, rows)
      == ReadFields(ts, at + |PrintFlags(flags, more)|, place, ox, oy, false, rows)
    decreases |flags|
  {
    hide Holds, ReadObjects;
    if flags != [] {
      if |flags| == 1 && !more {
        Standing(ts, at, flags[0]);
      } else {
        HoldsBoth(ts, at, [flags[0], Comma], PrintFlags(flags[1..], more));
        TwoStand(ts, at, flags[0], Comma);
        assert ReadFields(ts, at, place, ox, oy, false, rows) == ReadFields(ts, at + 1, place, ox, oy, false, rows);
        FlagsOfPrint(ts, at + 2, flags[1..], more, place, ox, oy, rows);
      }
    }
  }

  lemma ContentOfPrint(ts: seq<Token>, at: nat, content: Option<Objs>, place: Place, ox: nat, oy: nat, rows: seq<Row>)
    requires content.Some? ==> GoodObjs(content.value)
    requires Holds(ts, at, PrintContent(content)) && Stops(ts, at + |PrintContent(content)|)
    ensures ReadFields(ts, at, place, ox, oy, false, rows)
      == Ok(rows + TileRows(place, Tile(ox, oy, [], content)), at + |PrintContent(content)|)
  {
    hide Holds, ReadObjects, PrintObjects, RowsOf, GoodObjs, IdsOf, Named, IsFlag;
    if content.None? {
      assert rows + [] == rows;
    } else {
      HoldsBoth(ts, at, [Word("Content"), Equals], PrintObjects(content.value));
      TwoStand(ts, at, Word("Content"), Equals);
      assert Named(Word("Content"), "content") && !IsFlag(Word("Content")) by { ContentIsNoFlag(); }
      ObjectsOfPrint(ts, at + 2, content.value);
    }
  }

  lemma ContentIsNoFlag()
    ensures Named(Word("Content"), "content") && !IsFlag(Word("Content"))
  {
    var folded := Folded("Content");
    assert folded == "content";
    assert |"refresh"| == 7 && folded[0] != "refresh"[0] && folded[0] != "nologout"[0]
      && folded[0] != "protectionzone"[0];
  }

  lemma {:induction false} TilesOfPrint(ts: seq<Token>, at: nat, tiles: seq<Tile>, place: Place, rows: seq<Row>)
    requires forall i :: 0 <= i < |tiles| ==> GoodTile(tiles[i])
    requires Holds(ts, at, PrintTiles(tiles)) && at + |PrintTiles(tiles)| == |ts|
    ensures ReadTiles(ts, at, place, rows) == Ok(rows + AllRows(place, tiles), |ts|)
    decreases |tiles|
  {
    hide Holds, PrintTile, ReadFields, TileRows, GoodTile;
    if tiles == [] {
      assert rows + [] == rows;
    } else {
      HoldsBoth(ts, at, PrintTile(tiles[0]), PrintTiles(tiles[1..]));
      var next := at + |PrintTile(tiles[0])|;
      NextStops(ts, next, tiles[1..]);
      TileOfPrint(ts, at, tiles[0], place, rows);
      TilesOfPrint(ts, next, tiles[1..], place, rows + TileRows(place, tiles[0]));
      Reassociate(rows, TileRows(place, tiles[0]), AllRows(place, tiles[1..]));
    }
  }

  lemma NextStops(ts: seq<Token>, at: nat, tiles: seq<Tile>)
    requires Holds(ts, at, PrintTiles(tiles)) && at + |PrintTiles(tiles)| == |ts|
    ensures Stops(ts, at)
  {
    hide Holds, PrintFlags, PrintContent;
    if tiles != [] {
      var tile := tiles[0];
      HoldsBoth(ts, at, PrintTile(tile), PrintTiles(tiles[1..]));
      HeaderStands(ts, at, tile);
    }
  }

  lemma HeaderStands(ts: seq<Token>, at: nat, tile: Tile)
    requires Holds(ts, at, PrintTile(tile))
    ensures Header(ts, at) && ts[at] == Number(tile.ox) && ts[at + 2] == Number(tile.oy)
  {
    hide Holds, PrintFlags, PrintContent;
    var header := [Number(tile.ox), Dash, Number(tile.oy), Colon];
    HoldsBoth(ts, at, header, PrintFlags(tile.flags, tile.content.Some?) + PrintContent(tile.content));
    HoldsAt(ts, at, header, 0);
    HoldsAt(ts, at, header, 1);
    HoldsAt(ts, at, header, 2);
    HoldsAt(ts, at, header, 3);
    HeaderFits(ts, at, header);
  }

  lemma HeaderFits(ts: seq<Token>, at: nat, header: seq<Token>)
    requires Holds(ts, at, header) && |header| == 4
    ensures at + 3 < |ts|
  {
  }

  lemma TileOfPrint(ts: seq<Token>, at: nat, tile: Tile, place: Place, rows: seq<Row>)
    requires GoodTile(tile) && Holds(ts, at, PrintTile(tile)) && Stops(ts, at + |PrintTile(tile)|)
    ensures at + 3 < |ts| && ts[at].Number? && ts[at + 2].Number? && HeaderError(ts, at) == None
    ensures ReadFields(ts, at + 4, place, ts[at].value, ts[at + 2].value, false, rows)
      == Ok(rows + TileRows(place, tile), at + |PrintTile(tile)|)
  {
    hide Holds, PrintFlags, PrintContent, ReadFields, RowsOf, GoodObjs, IsFlag;
    HeaderStands(ts, at, tile);
    var header := [Number(tile.ox), Dash, Number(tile.oy), Colon];
    var flags, content := PrintFlags(tile.flags, tile.content.Some?), PrintContent(tile.content);
    HoldsBoth(ts, at, header, flags + content);
    HoldsBoth(ts, at + 4, flags, content);
    FlagsOfPrint(ts, at + 4, tile.flags, tile.content.Some?, place, tile.ox, tile.oy, rows);
    ContentOfPrint(ts, at + 4 + |flags|, tile.content, place, tile.ox, tile.oy, rows);
  }

  /** Parsing a printed sector yields, tile by tile, exactly the top-level objects with their
      stack indexes and disguises; nothing nested, nothing left over. */
  lemma ParsingUndoesPrinting(tiles: seq<Tile>, place: Place)
    requires forall i :: 0 <= i < |tiles| ==> GoodTile(tiles[i])
    ensures ReadTiles(PrintTiles(tiles), 0, place, []) == Ok(AllRows(place, tiles), |PrintTiles(tiles)|)
  {
    hide PrintTiles, ReadTiles, GoodTile, AllRows;
    var ts := PrintTiles(tiles);
    assert Holds(ts, 0, ts);
    TilesOfPrint(ts, 0, tiles, place, []);
    assert [] + AllRows(place, tiles) == AllRows(place, tiles);
  }
}
