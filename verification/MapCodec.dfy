/** The server's half of the map stream (reference/game/src/sending.cc), which the client's
    scanner inverts: runs of empty fields of any length, crossing rectangles and floors. */
module MapCodec {
  import opened World
  import opened Chunks
  import opened Viewport
  import opened ObjectTypes
  import opened MapScan
  import opened Floors

  // ---- what the server writes for one thing ---------------------------------------------

  function Word(w: word): (bytes: seq<byte>)
    ensures |bytes| == 2
  {
    [w % 0x100, w / 0x100]
  }

  function Quad(q: quad): (bytes: seq<byte>)
    ensures |bytes| == 4
  {
    Word(q % 0x1_0000) + Word(q / 0x1_0000)
  }

  function SendString(text: seq<byte>): seq<byte>
    requires |text| < 0x1_0000
  {
    Word(|text|) + text
  }

  function SendOutfit(outfit: Outfit): seq<byte> {
    match outfit
    case Disguised(objectType) => Word(0) + Word(objectType)
    case Coloured(outfitId, colours) => Word(outfitId) + colours
    case Unset => []
  }

  function SendDescriptor(look: Descriptor): seq<byte> {
    [look.health] + ([look.direction] + (SendOutfit(look.outfit) + ([look.brightness] + ([look.lightColour]
      + (Word(look.speed) + ([look.skull] + [look.party]))))))
  }

  function SendOptional(b: Option<byte>): seq<byte> {
    if b.Some? then [b.value] else []
  }

  function SendItem(item: ItemThing): seq<byte> {
    Word(item.typeId) + (SendOptional(item.liquidColor) + SendOptional(item.amount))
  }

  function SendCreature(creature: CreatureThing): seq<byte>
    requires creature.Introduced? ==> |creature.name| < 0x1_0000
  {
    match creature
    case Known(id, facing) => Word(CREATURE_MARKER_KNOWN) + (Quad(id) + [facing])
    case Outdated(id, look) => Word(CREATURE_MARKER_OUTDATED) + (Quad(id) + SendDescriptor(look))
    case Introduced(id, evicted, name, look) =>
      Word(CREATURE_MARKER_NEW) + (Quad(evicted) + (Quad(id) + (SendString(name) + SendDescriptor(look))))
  }

  predicate GoodOutfit(outfit: Outfit) {
    match outfit
    case Disguised(_) => true
    case Coloured(outfitId, colours) => outfitId != 0 && |colours| == 4
    case Unset => false
  }

  predicate GoodItem(item: ItemThing, types: Types) {
    var encoding := Lookup(types, item.typeId);
    && LAST_BODY_CONTAINER < item.typeId < SKIP_MARKER_BASE
    && item.typeId != CREATURE_CONTAINER
    && encoding.known
    && item.liquidColor.Some? == encoding.liquidColor
    && item.amount.Some? == encoding.cumulative
  }

  /** A thing the server can put on a field: the type table's own invariants keep item ids off
      the creature markers and the skip page. */
  predicate Sendable(thing: MapThing, types: Types) {
    match thing
    case Item(item) =>
      GoodItem(item, types) && item.typeId != CREATURE_MARKER_NEW && item.typeId != CREATURE_MARKER_OUTDATED
    case Creature(Known(_, _)) => true
    case Creature(Outdated(_, look)) => GoodOutfit(look.outfit)
    case Creature(Introduced(_, _, name, look)) => |name| <= CREATURE_NAME_LIMIT && GoodOutfit(look.outfit)
  }

  function SendMapObject(thing: MapThing, types: Types): (bytes: seq<byte>)
    requires Sendable(thing, types)
    ensures |bytes| >= 2
  {
    match thing
    case Item(item) => SendItem(item)
    case Creature(creature) => SendCreature(creature)
  }

  // ---- reading it back ---------------------------------------------------------------------

  lemma ReadWord(s: seq<byte>, at: nat, w: word)
    requires Holds(s, at, Word(w))
    ensures U16(s, at) == Ok(w, at + 2)
  {
    HoldsAt(s, at, Word(w), 0);
    HoldsAt(s, at, Word(w), 1);
  }

  lemma ReadQuad(s: seq<byte>, at: nat, q: quad)
    requires Holds(s, at, Quad(q))
    ensures U32(s, at) == Ok(q, at + 4)
  {
    HoldsBoth(s, at, Word(q % 0x1_0000), Word(q / 0x1_0000));
    ReadWord(s, at, q % 0x1_0000);
    ReadWord(s, at + 2, q / 0x1_0000);
  }

  lemma ReadByte(s: seq<byte>, at: nat, b: byte)
    requires Holds(s, at, [b])
    ensures U8(s, at) == Ok(b, at + 1)
  {
    HoldsAt(s, at, [b], 0);
  }

  lemma ReadText(s: seq<byte>, at: nat, text: seq<byte>)
    requires |text| < 0x1_0000 && Holds(s, at, SendString(text))
    ensures Text(s, at) == Ok(text, at + |SendString(text)|)
    ensures |text| <= CREATURE_NAME_LIMIT ==> CreatureName(s, at) == Ok(text, at + |SendString(text)|)
  {
    HoldsBoth(s, at, Word(|text|), text);
    ReadWord(s, at, |text|);
  }

  lemma ReadSentOutfit(s: seq<byte>, at: nat, outfit: Outfit)
    requires GoodOutfit(outfit) && Holds(s, at, SendOutfit(outfit))
    ensures ReadOutfit(s, at) == Ok(outfit, at + |SendOutfit(outfit)|)
  {
    match outfit
    case Disguised(objectType) =>
      HoldsBoth(s, at, Word(0), Word(objectType));
      ReadWord(s, at, 0);
      ReadWord(s, at + 2, objectType);
    case Coloured(outfitId, colours) =>
      HoldsBoth(s, at, Word(outfitId), colours);
      ReadWord(s, at, outfitId);
  }

  lemma ReadSentDescriptor(s: seq<byte>, at: nat, look: Descriptor)
    requires GoodOutfit(look.outfit) && Holds(s, at, SendDescriptor(look))
    ensures ReadDescriptor(s, at) == Ok(look, at + |SendDescriptor(look)|)
  {
    hide SendOutfit, GoodOutfit, Word, U8, U16, ReadOutfit, Holds;
    var t6 := [look.skull] + [look.party];
    var t5 := Word(look.speed) + t6;
    var t4 := [look.lightColour] + t5;
    var t3 := [look.brightness] + t4;
    var t2 := SendOutfit(look.outfit) + t3;
    var t1 := [look.direction] + t2;
    HoldsBoth(s, at, [look.health], t1);
    ReadByte(s, at, look.health);
    HoldsBoth(s, at + 1, [look.direction], t2);
    ReadByte(s, at + 1, look.direction);
    HoldsBoth(s, at + 2, SendOutfit(look.outfit), t3);
    ReadSentOutfit(s, at + 2, look.outfit);
    var at3 := at + 2 + |SendOutfit(look.outfit)|;
    HoldsBoth(s, at3, [look.brightness], t4);
    ReadByte(s, at3, look.brightness);
    HoldsBoth(s, at3 + 1, [look.lightColour], t5);
    ReadByte(s, at3 + 1, look.lightColour);
    HoldsBoth(s, at3 + 2, Word(look.speed), t6);
    ReadWord(s, at3 + 2, look.speed);
    HoldsBoth(s, at3 + 4, [look.skull], [look.party]);
    ReadByte(s, at3 + 4, look.skull);
    ReadByte(s, at3 + 5, look.party);
  }

  lemma ReadSentOptional(s: seq<byte>, at: nat, b: Option<byte>)
    requires Holds(s, at, SendOptional(b))
    ensures OptionalByte(s, at, b.Some?) == Ok(b, at + |SendOptional(b)|)
  {
    if b.Some? { ReadByte(s, at, b.value); }
  }

  lemma ReadSentItem(s: seq<byte>, at: nat, item: ItemThing, types: Types)
    requires GoodItem(item, types) && Holds(s, at, SendItem(item))
    ensures U16(s, at) == Ok(item.typeId, at + 2)
    ensures ItemBody(s, at + 2, item.typeId, types) == Ok(item, at + |SendItem(item)|)
    ensures ReadItem(s, at, types) == Ok(item, at + |SendItem(item)|)
  {
    hide Word, U16, SendOptional, OptionalByte, Holds;
    HoldsBoth(s, at, Word(item.typeId), SendOptional(item.liquidColor) + SendOptional(item.amount));
    ReadWord(s, at, item.typeId);
    HoldsBoth(s, at + 2, SendOptional(item.liquidColor), SendOptional(item.amount));
    ReadSentOptional(s, at + 2, item.liquidColor);
    ReadSentOptional(s, at + 2 + |SendOptional(item.liquidColor)|, item.amount);
  }

  lemma ReadSentCreature(s: seq<byte>, at: nat, creature: CreatureThing, types: Types)
    requires Sendable(Creature(creature), types) && Holds(s, at, SendCreature(creature))
    ensures ReadThing(s, at, types) == Ok(Creature(creature), at + |SendCreature(creature)|)
    ensures U16(s, at).Ok? && U16(s, at).value < SKIP_MARKER_BASE
  {
    hide Word, Quad, U8, U16, U32, Holds, SendDescriptor, ReadDescriptor, SendString, CreatureName, ItemBody;
    match creature
    case Known(id, facing) =>
      HoldsBoth(s, at, Word(CREATURE_MARKER_KNOWN), Quad(id) + [facing]);
      ReadWord(s, at, CREATURE_MARKER_KNOWN);
      HoldsBoth(s, at + 2, Quad(id), [facing]);
      ReadQuad(s, at + 2, id);
      ReadByte(s, at + 6, facing);
    case Outdated(id, look) =>
      HoldsBoth(s, at, Word(CREATURE_MARKER_OUTDATED), Quad(id) + SendDescriptor(look));
      ReadWord(s, at, CREATURE_MARKER_OUTDATED);
      HoldsBoth(s, at + 2, Quad(id), SendDescriptor(look));
      ReadQuad(s, at + 2, id);
      ReadSentDescriptor(s, at + 6, look);
    case Introduced(id, evicted, name, look) =>
      var t2 := SendString(name) + SendDescriptor(look);
      var t1 := Quad(id) + t2;
      HoldsBoth(s, at, Word(CREATURE_MARKER_NEW), Quad(evicted) + t1);
      ReadWord(s, at, CREATURE_MARKER_NEW);
      HoldsBoth(s, at + 2, Quad(evicted), t1);
      ReadQuad(s, at + 2, evicted);
      HoldsBoth(s, at + 6, Quad(id), t2);
      ReadQuad(s, at + 6, id);
      HoldsBoth(s, at + 10, SendString(name), SendDescriptor(look));
      ReadText(s, at + 10, name);
      ReadSentDescriptor(s, at + 10 + |SendString(name)|, look);
  }

  /** Reading one object undoes sending it. */
  lemma ReadSentThing(s: seq<byte>, at: nat, thing: MapThing, types: Types)
    requires Sendable(thing, types) && Holds(s, at, SendMapObject(thing, types))
    ensures ReadThing(s, at, types) == Ok(thing, at + |SendMapObject(thing, types)|)
    ensures U16(s, at).Ok? && U16(s, at).value < SKIP_MARKER_BASE
  {
    hide U16, ItemBody, SendItem, SendCreature, Holds;
    match thing
    case Item(item) => ReadSentItem(s, at, item, types);
    case Creature(creature) => ReadSentCreature(s, at, creature, types);
  }

  // ---- runs of fields -----------------------------------------------------------------------

  /** What stands on each field, as the server holds it for this message. */
  type Fields = MapPosition -> seq<MapThing>

  ghost predicate AllSendable(fields: Fields, types: Types) {
    forall p, i :: 0 <= i < |fields(p)| ==> Sendable(fields(p)[i], types)
  }

  function SendThings(things: seq<MapThing>, types: Types): seq<byte>
    requires forall i :: 0 <= i < |things| ==> Sendable(things[i], types)
  {
    if things == [] then [] else SendMapObject(things[0], types) + SendThings(things[1..], types)
  }

  function Marker(count: nat): byte {
    if count < 0xFF then count else 0xFF
  }

  function SkipFlush(skip: int): seq<byte>
    decreases skip + 1
  {
    if skip < 0 then [] else [Marker(skip), 0xFF] + SkipFlush(skip - Marker(skip) - 1)
  }

  /** Everything the server writes for the fields `ps` when `skip` fields are still pending:
      -1 before the first field of a command. */
  ghost function SendPoints(skip: int, ps: seq<MapPosition>, fields: Fields, types: Types): seq<byte>
    requires AllSendable(fields, types)
    decreases |ps|
  {
    if ps == [] then SkipFlush(skip)
    else if fields(ps[0]) == [] then SendPoints(skip + 1, ps[1..], fields, types)
    else SkipFlush(skip) + (SendThings(Shown(fields(ps[0])), types) + SendPoints(0, ps[1..], fields, types))
  }

  /** The loop of SendFullScreen, SendRow and SendFloors: one counter for the whole command,
      flushed whenever a field has something on it and once at the end. */
  method SendMap(ps: seq<MapPosition>, fields: Fields, types: Types) returns (bytes: seq<byte>)
    requires AllSendable(fields, types)
    ensures bytes == SendPoints(-1, ps, fields, types)
  {
    hide SkipFlush, SendMapObject, Sendable;
    var skip := -1;
    bytes := [];
    for n := 0 to |ps|
      invariant skip >= -1
      invariant bytes + SendPoints(skip, ps[n..], fields, types) == SendPoints(-1, ps, fields, types)
    {
      ghost var rest := SendPoints(0, ps[n + 1..], fields, types);
      assert ps[n..][1..] == ps[n + 1..];
      var things := fields(ps[n]);
      if things != [] {
        ghost var sent := SkipFlush(skip) + SendThings(Shown(things), types);
        Reassociate(SkipFlush(skip), SendThings(Shown(things), types), rest);
        Reassociate(bytes, sent, rest);
        bytes := SendField(skip, bytes, Shown(things), types);
        skip := -1;
      }
      skip := skip + 1;
    }
    assert ps[|ps|..] == [];
    bytes := Flush(skip, bytes);
  }

  method SendField(skip: int, before: seq<byte>, things: seq<MapThing>, types: Types) returns (bytes: seq<byte>)
    requires skip >= -1 && forall i :: 0 <= i < |things| ==> Sendable(things[i], types)
    ensures bytes == before + (SkipFlush(skip) + SendThings(things, types))
  {
    hide Sendable, SkipFlush, SendMapObject;
    bytes := Flush(skip, before);
    for k := 0 to |things|
      invariant bytes + SendThings(things[k..], types) == before + (SkipFlush(skip) + SendThings(things, types))
    {
      assert things[k..][1..] == things[k + 1..];
      Reassociate(bytes, SendMapObject(things[k], types), SendThings(things[k + 1..], types));
      bytes := bytes + SendMapObject(things[k], types);
    }
    assert things[|things|..] == [];
    assert bytes + [] == bytes;
  }

  method Flush(pending: int, before: seq<byte>) returns (bytes: seq<byte>)
    requires pending >= -1
    ensures bytes == before + SkipFlush(pending)
  {
    var skip := pending;
    bytes := before;
    while skip >= 0
      invariant skip >= -1
      invariant bytes + SkipFlush(skip) == before + SkipFlush(pending)
      decreases skip + 1
    {
      var count := if skip < 0xFF then skip else 0xFF;
      bytes := bytes + [count, 0xFF];
      skip := skip - (count + 1);
    }
  }

  /** How many of the next fields are empty. */
  function Leading(ps: seq<MapPosition>, fields: Fields): (n: nat)
    ensures n <= |ps|
    ensures forall i :: 0 <= i < n ==> fields(ps[i]) == []
    ensures n < |ps| ==> fields(ps[n]) != []
  {
    if ps == [] || fields(ps[0]) != [] then 0 else 1 + Leading(ps[1..], fields)
  }

  ghost function Tail(ps: seq<MapPosition>, fields: Fields, types: Types): seq<byte>
    requires AllSendable(fields, types)
  {
    if ps == [] then [] else SendThings(Shown(fields(ps[0])), types) + SendPoints(0, ps[1..], fields, types)
  }

  lemma {:induction false} LeadingRun(skip: int, ps: seq<MapPosition>, fields: Fields, types: Types)
    requires AllSendable(fields, types) && skip >= -1
    ensures var e := Leading(ps, fields);
      SendPoints(skip, ps, fields, types) == SkipFlush(skip + e) + Tail(ps[e..], fields, types)
    decreases |ps|
  {
    hide SkipFlush, SendThings, AllSendable, Tail, SendPoints;
    var e := Leading(ps, fields);
    if ps != [] && fields(ps[0]) == [] {
      EmptyIsSkipped(skip, ps, fields, types);
      LeadingRun(skip + 1, ps[1..], fields, types);
      SliceOfSlice(ps, 1, e);
      assert (skip + 1) + Leading(ps[1..], fields) == skip + e;
    } else {
      assert ps[0..] == ps;
      NoLeading(skip, ps, fields, types);
    }
  }

  lemma EmptyIsSkipped(skip: int, ps: seq<MapPosition>, fields: Fields, types: Types)
    requires AllSendable(fields, types) && ps != [] && fields(ps[0]) == []
    ensures SendPoints(skip, ps, fields, types) == SendPoints(skip + 1, ps[1..], fields, types)
  {
    hide AllSendable, SkipFlush, SendThings;
  }

  lemma NoLeading(skip: int, ps: seq<MapPosition>, fields: Fields, types: Types)
    requires AllSendable(fields, types) && skip >= -1
    requires ps == [] || fields(ps[0]) != []
    ensures SendPoints(skip, ps, fields, types) == SkipFlush(skip) + Tail(ps, fields, types)
  {
    hide SkipFlush, SendThings, AllSendable;
    if ps == [] {
      assert SkipFlush(skip) + [] == SkipFlush(skip);
    }
  }

  lemma FlushOnce(skip: nat, rest: seq<byte>)
    ensures SkipFlush(skip) + rest == [Marker(skip), 0xFF] + (SkipFlush(skip - Marker(skip) - 1) + rest)
  {
    hide Marker;
    var left := SkipFlush(skip - Marker(skip) - 1);
    Reassociate([Marker(skip), 0xFF], left, rest);
  }

  lemma LeadingSuffix(ps: seq<MapPosition>, fields: Fields, m: nat)
    requires m <= Leading(ps, fields)
    ensures Leading(ps[m..], fields) == Leading(ps, fields) - m
  {
    var a := Leading(ps, fields);
    var b := Leading(ps[m..], fields);
    if b < |ps[m..]| { assert ps[m..][b] == ps[m + b]; }
    if a < |ps| { assert ps[m..][a - m] == ps[a]; }
  }

  /** After a described field the stream continues with one marker counting at most 255 empty
      fields, and what follows those is a fresh start. */
  lemma AfterField(ps: seq<MapPosition>, fields: Fields, types: Types)
    requires AllSendable(fields, types)
    ensures var m := Marker(Leading(ps, fields));
      SendPoints(0, ps, fields, types) == [m, 0xFF] + SendPoints(-1, ps[m..], fields, types)
  {
    hide SendPoints, AllSendable, Leading, SkipFlush, Tail, Marker;
    var e := Leading(ps, fields);
    MarkerFits(e);
    LeadingRun(0, ps, fields, types);
    AfterSkipping(ps, fields, types, Marker(e));
    FlushOnce(e, Tail(ps[e..], fields, types));
  }

  lemma MarkerFits(count: nat)
    ensures Marker(count) <= count
  {
  }

  lemma AfterSkipping(ps: seq<MapPosition>, fields: Fields, types: Types, m: nat)
    requires AllSendable(fields, types) && m <= Leading(ps, fields)
    ensures var e := Leading(ps, fields);
      SendPoints(-1, ps[m..], fields, types) == SkipFlush(e - m - 1) + Tail(ps[e..], fields, types)
  {
    hide SendPoints, AllSendable, Leading, SkipFlush, Tail;
    LeadingSuffix(ps, fields, m);
    LeadingRun(-1, ps[m..], fields, types);
    SliceOfSlice(ps, m, Leading(ps, fields));
  }

  ghost predicate Pending(s: seq<byte>, at: nat, skip: nat, ps: seq<MapPosition>, fields: Fields, types: Types)
    requires AllSendable(fields, types)
  {
    skip <= Leading(ps, fields) && Holds(s, at, SendPoints(-1, ps[skip..], fields, types))
  }

  ghost function End(at: nat, skip: nat, ps: seq<MapPosition>, fields: Fields, types: Types): nat
    requires AllSendable(fields, types) && skip <= |ps|
  {
    at + |SendPoints(-1, ps[skip..], fields, types)|
  }

  lemma {:induction false} ReadSentTile(
      s: seq<byte>, at: nat, before: seq<MapThing>, things: seq<MapThing>, m: byte, types: Types)
    requires forall i :: 0 <= i < |things| ==> Sendable(things[i], types)
    requires |before| + |things| <= MAX_OBJECTS_PER_POINT
    requires Holds(s, at, SendThings(things, types) + [m, 0xFF])
    ensures ReadTile(s, at, types, before) == Ok(Described(before + things, m), at + |SendThings(things, types)| + 2)
    ensures things != [] ==> U16(s, at).Ok? && U16(s, at).value < SKIP_MARKER_BASE
    decreases |things|
  {
    hide Sendable, SendMapObject, ReadThing;
    if things == [] {
      assert SendThings(things, types) + [m, 0xFF] == [m, 0xFF];
      HoldsAt(s, at, [m, 0xFF], 0);
      HoldsAt(s, at, [m, 0xFF], 1);
      assert before + things == before;
    } else {
      var head := SendMapObject(things[0], types);
      var rest := SendThings(things[1..], types) + [m, 0xFF];
      assert SendThings(things, types) + [m, 0xFF] == head + rest;
      HoldsBoth(s, at, head, rest);
      ReadSentThing(s, at, things[0], types);
      ReadSentTile(s, at + |head|, before + [things[0]], things[1..], m, types);
      assert before + [things[0]] + things[1..] == before + things;
    }
  }

  lemma StepSkipped(s: seq<byte>, at: nat, skip: nat, ps: seq<MapPosition>, fields: Fields, types: Types)
    requires AllSendable(fields, types) && ps != [] && skip > 0 && Pending(s, at, skip, ps, fields, types)
    ensures fields(ps[0]) == [] && Pending(s, at, skip - 1, ps[1..], fields, types)
    ensures End(at, skip - 1, ps[1..], fields, types) == End(at, skip, ps, fields, types)
  {
    hide SendPoints, AllSendable;
    LeadingSuffix(ps, fields, 1);
    assert ps[1..][skip - 1..] == ps[skip..];
  }

  lemma StepMarker(s: seq<byte>, at: nat, ps: seq<MapPosition>, fields: Fields, types: Types) returns (m: byte)
    requires AllSendable(fields, types) && ps != [] && Pending(s, at, 0, ps, fields, types) && fields(ps[0]) == []
    ensures U16(s, at) == Ok(SKIP_MARKER_BASE + m, at + 2)
    ensures Pending(s, at + 2, m, ps[1..], fields, types)
    ensures End(at + 2, m, ps[1..], fields, types) == End(at, 0, ps, fields, types)
  {
    hide AllSendable, SkipFlush;
    assert ps[0..] == ps;
    m := Marker(Leading(ps[1..], fields));
    AfterField(ps[1..], fields, types);
    HoldsBoth(s, at, [m, 0xFF], SendPoints(-1, ps[1..][m..], fields, types));
    HoldsAt(s, at, [m, 0xFF], 0);
    HoldsAt(s, at, [m, 0xFF], 1);
  }

  lemma SentFieldParts(ps: seq<MapPosition>, fields: Fields, types: Types)
    requires AllSendable(fields, types) && ps != [] && fields(ps[0]) != []
    ensures forall i :: 0 <= i < |Shown(fields(ps[0]))| ==> Sendable(Shown(fields(ps[0]))[i], types)
    ensures Shown(fields(ps[0])) != []
    ensures SendPoints(-1, ps, fields, types)
      == SendThings(Shown(fields(ps[0])), types) + SendPoints(0, ps[1..], fields, types)
  {
    hide SendThings, Sendable;
  }

  lemma StepTile(s: seq<byte>, at: nat, ps: seq<MapPosition>, fields: Fields, types: Types) returns (m: byte, next: nat)
    requires AllSendable(fields, types) && ps != [] && Pending(s, at, 0, ps, fields, types) && fields(ps[0]) != []
    ensures U16(s, at).Ok? && U16(s, at).value < SKIP_MARKER_BASE
    ensures ReadTile(s, at, types, []) == Ok(Described(Shown(fields(ps[0])), m), next)
    ensures Pending(s, next, m, ps[1..], fields, types)
    ensures End(next, m, ps[1..], fields, types) == End(at, 0, ps, fields, types)
  {
    hide ReadTile, U16, Leading, SendPoints, SkipFlush, Shown, SendThings, Sendable, Pending, Holds, End;
    m := Marker(Leading(ps[1..], fields));
    var things := Shown(fields(ps[0]));
    assert forall i :: 0 <= i < |things| ==> Sendable(things[i], types) by { SentFieldParts(ps, fields, types); }
    assert things != [] by { SentFieldParts(ps, fields, types); }
    TileHeld(s, at, ps, fields, types);
    ReadSentTile(s, at, [], things, m, types);
    assert [] + things == things;
    next := at + |SendThings(things, types)| + 2;
  }

  lemma TileHeld(s: seq<byte>, at: nat, ps: seq<MapPosition>, fields: Fields, types: Types)
    requires AllSendable(fields, types) && ps != [] && Pending(s, at, 0, ps, fields, types) && fields(ps[0]) != []
    requires forall i :: 0 <= i < |Shown(fields(ps[0]))| ==> Sendable(Shown(fields(ps[0]))[i], types)
    ensures var m := Marker(Leading(ps[1..], fields));
      var sent := SendThings(Shown(fields(ps[0])), types);
      && Holds(s, at, sent + [m, 0xFF])
      && Pending(s, at + |sent| + 2, m, ps[1..], fields, types)
      && End(at + |sent| + 2, m, ps[1..], fields, types) == End(at, 0, ps, fields, types)
  {
    hide SendPoints, SkipFlush, Shown, SendThings, Sendable, AllSendable, Holds;
    var m := Marker(Leading(ps[1..], fields));
    var sent := SendThings(Shown(fields(ps[0])), types);
    assert ps[0..] == ps;
    TileStream(ps, fields, types);
    HoldsBoth(s, at, sent + [m, 0xFF], SendPoints(-1, ps[1..][m..], fields, types));
  }

  lemma TileStream(ps: seq<MapPosition>, fields: Fields, types: Types)
    requires AllSendable(fields, types) && ps != [] && fields(ps[0]) != []
    requires forall i :: 0 <= i < |Shown(fields(ps[0]))| ==> Sendable(Shown(fields(ps[0]))[i], types)
    ensures var m := Marker(Leading(ps[1..], fields));
      SendPoints(-1, ps, fields, types)
      == (SendThings(Shown(fields(ps[0])), types) + [m, 0xFF]) + SendPoints(-1, ps[1..][m..], fields, types)
  {
    SentFieldParts(ps, fields, types);
    hide SendPoints, SendThings, Sendable, AllSendable, Shown, Leading;
    var m := Marker(Leading(ps[1..], fields));
    AfterField(ps[1..], fields, types);
    Reassociate(SendThings(Shown(fields(ps[0])), types), [m, 0xFF], SendPoints(-1, ps[1..][m..], fields, types));
  }

  /** The tiles a client stores for the fields `ps`. */
  function DescribedTiles(ps: seq<MapPosition>, fields: Fields): seq<MapTile> {
    if ps == [] then []
    else if fields(ps[0]) == [] then DescribedTiles(ps[1..], fields)
    else [MapTile(ps[0], Shown(fields(ps[0])))] + DescribedTiles(ps[1..], fields)
  }

  /** Scanning the first fields of a run stores exactly the described ones and stops where
      the rest of the run begins. */
  lemma {:induction false} ScanSent(
      s: seq<byte>, at: nat, types: Types, ps: seq<MapPosition>, qs: seq<MapPosition>, state: ScanState, fields: Fields)
      returns (skip: nat, next: nat)
    requires AllSendable(fields, types) && Pending(s, at, state.skip, ps + qs, fields, types)
    ensures Pending(s, next, skip, qs, fields, types)
    ensures End(next, skip, qs, fields, types) == End(at, state.skip, ps + qs, fields, types)
    ensures Scan(s, at, types, ps, state) == Ok(ScanState(skip, state.tiles + DescribedTiles(ps, fields)), next)
    decreases |ps|
  {
    hide AllSendable, Pending, End, U16, ReadTile, Shown;
    if ps == [] {
      assert ps + qs == qs;
      assert state.tiles + DescribedTiles(ps, fields) == state.tiles;
      return state.skip, at;
    }
    assert (ps + qs)[1..] == ps[1..] + qs;
    var all := ps + qs;
    if state.skip > 0 {
      StepSkipped(s, at, state.skip, all, fields, types);
      skip, next := ScanSent(s, at, types, ps[1..], qs, state.(skip := state.skip - 1), fields);
    } else if fields(ps[0]) == [] {
      var m := StepMarker(s, at, all, fields, types);
      skip, next := ScanSent(s, at + 2, types, ps[1..], qs, state.(skip := m), fields);
    } else {
      var m, at2 := StepTile(s, at, all, fields, types);
      var tile := MapTile(ps[0], Shown(fields(ps[0])));
      skip, next := ScanSent(s, at2, types, ps[1..], qs, ScanState(m, state.tiles + [tile]), fields);
      assert state.tiles + [tile] + DescribedTiles(ps[1..], fields) == state.tiles + DescribedTiles(ps, fields);
    }
  }

  function PointsOf(anchor: MapPosition, rect: Rect, zs: seq<int>): seq<MapPosition> {
    if zs == [] then [] else RectOn(anchor, rect, zs[0]) + PointsOf(anchor, rect, zs[1..])
  }

  function DescribedFloors(anchor: MapPosition, rect: Rect, zs: seq<int>, fields: Fields): (floors: seq<MapFloor>)
    ensures |floors| == |zs|
  {
    seq(|zs|, i requires 0 <= i < |zs| =>
      MapFloor(zs[i], anchor.z - zs[i], DescribedTiles(RectOn(anchor, rect, zs[i]), fields)))
  }

  lemma {:induction false} ScanFloorsSent(
      s: seq<byte>, at: nat, types: Types, anchor: MapPosition, rect: Rect, zs: seq<int>, state: FloorsState,
      fields: Fields)
    requires AllSendable(fields, types) && Pending(s, at, state.skip, PointsOf(anchor, rect, zs), fields, types)
    ensures ScanFloors(s, at, types, anchor, rect, zs, state)
      == Ok(FloorsState(0, state.floors + DescribedFloors(anchor, rect, zs, fields)),
            End(at, state.skip, PointsOf(anchor, rect, zs), fields, types))
    decreases |zs|
  {
    hide AllSendable, RectOn, Scan, DescribedTiles, Leading;
    if zs == [] {
      assert state.skip == 0;
      assert SendPoints(-1, [], fields, types) == [];
      assert state.floors + DescribedFloors(anchor, rect, zs, fields) == state.floors;
    } else {
      var ps := RectOn(anchor, rect, zs[0]);
      var skip, next := ScanSent(s, at, types, ps, PointsOf(anchor, rect, zs[1..]), ScanState(state.skip, []), fields);
      var floor := MapFloor(zs[0], anchor.z - zs[0], DescribedTiles(ps, fields));
      assert [] + DescribedTiles(ps, fields) == DescribedTiles(ps, fields);
      ScanFloorsSent(s, next, types, anchor, rect, zs[1..], FloorsState(skip, state.floors + [floor]), fields);
      assert DescribedFloors(anchor, rect, zs, fields) == [floor] + DescribedFloors(anchor, rect, zs[1..], fields);
      assert state.floors + [floor] + DescribedFloors(anchor, rect, zs[1..], fields)
        == state.floors + DescribedFloors(anchor, rect, zs, fields);
    }
  }

  /** Decoding undoes skip-run encoding, for any fields, any rectangle and any list of levels:
      the described fields come back at their positions, the run is used up exactly, and
      nothing of what follows is touched. */
  lemma ReadFloorsUndoesSending(
      s: seq<byte>, at: nat, types: Types, anchor: MapPosition, rect: Rect, zs: seq<int>, fields: Fields)
    requires AllSendable(fields, types)
    requires Holds(s, at, SendPoints(-1, PointsOf(anchor, rect, zs), fields, types))
    ensures ReadFloors(s, at, types, anchor, rect, zs)
      == Ok(DescribedFloors(anchor, rect, zs, fields), at + |SendPoints(-1, PointsOf(anchor, rect, zs), fields, types)|)
  {
    hide AllSendable, SendPoints, Holds, PointsOf;
    var ps := PointsOf(anchor, rect, zs);
    assert ps[0..] == ps;
    ScanFloorsSent(s, at, types, anchor, rect, zs, FloorsState(0, []), fields);
    assert [] + DescribedFloors(anchor, rect, zs, fields) == DescribedFloors(anchor, rect, zs, fields);
  }
}
