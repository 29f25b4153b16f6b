/** DecodeServerUpdate and the command bodies of player_state.cpp as they run: one scanner,
    advanced read by read, with the first failure ending the command. */
module Decoders {
  import opened World
  import opened Viewport
  import opened ObjectTypes
  import opened Updates
  import S = MapScan
  import C = Commands
  import opened MapScanners

  method ReadStackIndex(scanner: MapScanner) returns (r: Option<byte>)
    requires scanner.error == None
    modifies scanner
    ensures Reads(C.ReadStackIndex(scanner.bytes, old(scanner.at)), r, scanner.at, scanner.error)
  {
    hide S.U8;
    var stack := scanner.ReadU8();
    if stack == None { return None; }
    if stack.value >= MAX_OBJECTS_PER_POINT { scanner.Fail(S.InvalidStackIndex); return None; }
    r := Some(stack.value);
  }

  method DecodeAddField(scanner: MapScanner) returns (r: Option<ServerUpdate>)
    requires scanner.error == None
    modifies scanner
    ensures Reads(C.DecodeAddField(scanner.bytes, old(scanner.at), scanner.types), r, scanner.at, scanner.error)
  {
    hide S.ReadPosition, S.ReadThing;
    var p := scanner.ReadPosition();
    if p == None { return None; }
    var thing := scanner.ReadThing();
    if thing == None { return None; }
    r := Some(AddField(p.value, thing.value));
  }

  method DecodeChangeField(scanner: MapScanner) returns (r: Option<ServerUpdate>)
    requires scanner.error == None
    modifies scanner
    ensures Reads(C.DecodeChangeField(scanner.bytes, old(scanner.at), scanner.types), r, scanner.at, scanner.error)
  {
    hide C.ReadStackIndex, S.ReadPosition, S.ReadThing;
    var p := scanner.ReadPosition();
    if p == None { return None; }
    var stack := ReadStackIndex(scanner);
    if stack == None { return None; }
    var thing := scanner.ReadThing();
    if thing == None { return None; }
    r := Some(ChangeField(p.value, stack.value, thing.value));
  }

  method DecodeDeleteField(scanner: MapScanner) returns (r: Option<ServerUpdate>)
    requires scanner.error == None
    modifies scanner
    ensures Reads(C.DecodeDeleteField(scanner.bytes, old(scanner.at)), r, scanner.at, scanner.error)
  {
    hide C.ReadStackIndex, S.ReadPosition;
    var p := scanner.ReadPosition();
    if p == None { return None; }
    var stack := ReadStackIndex(scanner);
    if stack == None { return None; }
    r := Some(DeleteField(p.value, stack.value));
  }

  method DecodeMoveCreature(scanner: MapScanner) returns (r: Option<ServerUpdate>)
    requires scanner.error == None
    modifies scanner
    ensures Reads(C.DecodeMoveCreature(scanner.bytes, old(scanner.at)), r, scanner.at, scanner.error)
  {
    hide C.ReadStackIndex, S.ReadPosition;
    var origin := scanner.ReadPosition();
    if origin == None { return None; }
    var stack := ReadStackIndex(scanner);
    if stack == None { return None; }
    var destination := scanner.ReadPosition();
    if destination == None { return None; }
    r := Some(MoveCreature(origin.value, stack.value, destination.value));
  }

  method DecodeFieldData(scanner: MapScanner) returns (r: Option<ServerUpdate>)
    requires scanner.error == None && scanner.skip == 0
    modifies scanner
    ensures Reads(C.DecodeFieldData(scanner.bytes, old(scanner.at), scanner.types), r, scanner.at, scanner.error)
  {
    hide S.ReadPosition, S.Scan;
    var p := scanner.ReadPosition();
    if p == None { return None; }
    OneField(p.value);
    var floor := scanner.ScanRect(p.value.z, 0, p.value.x, p.value.y, 1, 1);
    if floor == None { return None; }
    var finished := scanner.FinishRun();
    if !finished { return None; }
    r := Some(FieldData(if floor.value.tiles == [] then MapTile(p.value, []) else floor.value.tiles[0]));
  }

  lemma OneField(p: MapPosition)
    ensures S.RectFrom(p.x, p.y, p.z, 1, 1, 0, 0) == [p]
  {
    assert S.RectFrom(p.x, p.y, p.z, 1, 1, 1, 0) == [];
    assert S.RectFrom(p.x, p.y, p.z, 1, 1, 0, 1) == [];
  }

  method ReadTalkTail(scanner: MapScanner, mode: byte) returns (r: Option<TalkTail>)
    requires scanner.error == None
    modifies scanner
    ensures Reads(C.ReadTalkTail(scanner.bytes, old(scanner.at), mode), r, scanner.at, scanner.error)
  {
    hide S.U8, S.U16, S.U32;
    match C.LayoutForMode(mode)
    case UnsupportedTail =>
      scanner.Fail(S.UnknownTalkMode);
      return None;
    case Positional =>
      var x := scanner.ReadU16();
      if x == None { return None; }
      var y := scanner.ReadU16();
      if y == None { return None; }
      var z := scanner.ReadU8();
      return if z == None then None else Some(At(MapPosition(x.value, y.value, z.value)));
    case ChannelTail =>
      var channel := scanner.ReadU16();
      return if channel == None then None else Some(InChannel(channel.value));
    case PlainTail =>
      if mode != C.GAMEMASTER_REQUEST { return Some(Plain); }
      var data := scanner.ReadU32();
      return if data == None then None else Some(Request(data.value));
  }

  method DecodeTalk(scanner: MapScanner) returns (r: Option<ServerUpdate>)
    requires scanner.error == None
    modifies scanner
    ensures Reads(C.DecodeTalk(scanner.bytes, old(scanner.at)), r, scanner.at, scanner.error)
  {
    hide C.ReadTalkTail, S.Text, S.U32, S.U8;
    var statement := scanner.ReadU32();
    if statement == None { return None; }
    var speaker := scanner.ReadText();
    if speaker == None { return None; }
    var mode := scanner.ReadU8();
    if mode == None { return None; }
    var tail := ReadTalkTail(scanner, mode.value);
    if tail == None { return None; }
    var text := scanner.ReadText();
    if text == None { return None; }
    r := Some(Talk(statement.value, speaker.value, mode.value, tail.value, text.value));
  }

  method DecodeMessage(scanner: MapScanner) returns (r: Option<ServerUpdate>)
    requires scanner.error == None
    modifies scanner
    ensures Reads(C.DecodeMessage(scanner.bytes, old(scanner.at)), r, scanner.at, scanner.error)
  {
    hide S.Text, S.U8;
    var mode := scanner.ReadU8();
    if mode == None { return None; }
    var text := scanner.ReadText();
    if text == None { return None; }
    r := Some(Message(mode.value, text.value));
  }

  method DecodeSnapback(scanner: MapScanner) returns (r: Option<ServerUpdate>)
    requires scanner.error == None
    modifies scanner
    ensures Reads(C.DecodeSnapback(scanner.bytes, old(scanner.at)), r, scanner.at, scanner.error)
  {
    hide S.U8;
    var facing := scanner.ReadU8();
    if facing == None { return None; }
    r := Some(Snapback(facing.value));
  }

  method DecodeAmbient(scanner: MapScanner) returns (r: Option<ServerUpdate>)
    requires scanner.error == None
    modifies scanner
    ensures Reads(C.DecodeAmbient(scanner.bytes, old(scanner.at)), r, scanner.at, scanner.error)
  {
    hide S.U8;
    var brightness := scanner.ReadU8();
    if brightness == None { return None; }
    var colour := scanner.ReadU8();
    if colour == None { return None; }
    r := Some(Ambient(brightness.value, colour.value));
  }

  method DecodeGraphicalEffect(scanner: MapScanner) returns (r: Option<ServerUpdate>)
    requires scanner.error == None
    modifies scanner
    ensures Reads(C.DecodeGraphicalEffect(scanner.bytes, old(scanner.at)), r, scanner.at, scanner.error)
  {
    hide S.ReadPosition, S.U8;
    var p := scanner.ReadPosition();
    if p == None { return None; }
    var effect := scanner.ReadU8();
    if effect == None { return None; }
    r := Some(GraphicalEffect(p.value, effect.value));
  }

  method DecodeTextualEffect(scanner: MapScanner) returns (r: Option<ServerUpdate>)
    requires scanner.error == None
    modifies scanner
    ensures Reads(C.DecodeTextualEffect(scanner.bytes, old(scanner.at)), r, scanner.at, scanner.error)
  {
    hide S.ReadPosition, S.Text, S.U8;
    var p := scanner.ReadPosition();
    if p == None { return None; }
    var colour := scanner.ReadU8();
    if colour == None { return None; }
    var text := scanner.ReadText();
    if text == None { return None; }
    r := Some(TextualEffect(p.value, colour.value, text.value));
  }

  method DecodeMissileEffect(scanner: MapScanner) returns (r: Option<ServerUpdate>)
    requires scanner.error == None
    modifies scanner
    ensures Reads(C.DecodeMissileEffect(scanner.bytes, old(scanner.at)), r, scanner.at, scanner.error)
  {
    hide S.ReadPosition, S.U8;
    var origin := scanner.ReadPosition();
    if origin == None { return None; }
    var destination := scanner.ReadPosition();
    if destination == None { return None; }
    var effect := scanner.ReadU8();
    if effect == None { return None; }
    r := Some(MissileEffect(origin.value, destination.value, effect.value));
  }

  method DecodeMarkCreature(scanner: MapScanner) returns (r: Option<ServerUpdate>)
    requires scanner.error == None
    modifies scanner
    ensures Reads(C.DecodeMarkCreature(scanner.bytes, old(scanner.at)), r, scanner.at, scanner.error)
  {
    hide S.U32, S.U8;
    var id := scanner.ReadU32();
    if id == None { return None; }
    var colour := scanner.ReadU8();
    if colour == None { return None; }
    r := Some(MarkCreature(id.value, colour.value));
  }

  method ReadAttribute(scanner: MapScanner, opcode: byte) returns (r: Option<Attribute>)
    requires scanner.error == None
    modifies scanner
    ensures Reads(C.ReadAttribute(scanner.bytes, old(scanner.at), opcode), r, scanner.at, scanner.error)
  {
    hide S.U8, S.U16, S.ReadOutfit;
    if opcode == 142 {
      var outfit := scanner.ReadOutfit();
      return if outfit == None then None else Some(Look(outfit.value));
    }
    if opcode == 143 {
      var speed := scanner.ReadU16();
      return if speed == None then None else Some(Speed(speed.value));
    }
    var b := scanner.ReadU8();
    if b == None { return None; }
    if opcode == 140 { return Some(Health(b.value)); }
    if opcode == 144 { return Some(Skull(b.value)); }
    if opcode != 141 { return Some(Party(b.value)); }
    var colour := scanner.ReadU8();
    return if colour == None then None else Some(Light(b.value, colour.value));
  }

  method DecodeCreatureAttribute(scanner: MapScanner, opcode: byte) returns (r: Option<ServerUpdate>)
    requires scanner.error == None
    modifies scanner
    ensures Reads(C.DecodeCreatureAttribute(scanner.bytes, old(scanner.at), opcode), r, scanner.at, scanner.error)
  {
    hide C.ReadAttribute, S.U32;
    var id := scanner.ReadU32();
    if id == None { return None; }
    var attribute := ReadAttribute(scanner, opcode);
    if attribute == None { return None; }
    r := Some(CreatureAttribute(id.value, attribute.value));
  }

  method ReadStats(scanner: MapScanner) returns (r: Option<Stats>)
    requires scanner.error == None
    modifies scanner
    ensures Reads(C.ReadStats(scanner.bytes, old(scanner.at)), r, scanner.at, scanner.error)
  {
    hide S.U8, S.U16, S.U32;
    var hitpoints := scanner.ReadU16();
    if hitpoints == None { return None; }
    var maxHitpoints := scanner.ReadU16();
    if maxHitpoints == None { return None; }
    var capacity := scanner.ReadU16();
    if capacity == None { return None; }
    var experience := scanner.ReadU32();
    if experience == None { return None; }
    var level := scanner.ReadU16();
    if level == None { return None; }
    var levelPercent := scanner.ReadU8();
    if levelPercent == None { return None; }
    var mana := scanner.ReadU16();
    if mana == None { return None; }
    var maxMana := scanner.ReadU16();
    if maxMana == None { return None; }
    var magicLevel := scanner.ReadU8();
    if magicLevel == None { return None; }
    var magicLevelPercent := scanner.ReadU8();
    if magicLevelPercent == None { return None; }
    var soulPoints := scanner.ReadU8();
    if soulPoints == None { return None; }
    r := Some(Stats(hitpoints.value, maxHitpoints.value, capacity.value, experience.value, level.value,
      levelPercent.value, mana.value, maxMana.value, magicLevel.value, magicLevelPercent.value, soulPoints.value));
  }

  method DecodePlayerData(scanner: MapScanner) returns (r: Option<ServerUpdate>)
    requires scanner.error == None
    modifies scanner
    ensures Reads(C.DecodePlayerData(scanner.bytes, old(scanner.at)), r, scanner.at, scanner.error)
  {
    hide C.ReadStats;
    var stats := ReadStats(scanner);
    return if stats == None then None else Some(PlayerData(stats.value));
  }

  method ReadSkill(scanner: MapScanner) returns (r: Option<Skill>)
    requires scanner.error == None
    modifies scanner
    ensures Reads(C.ReadSkill(scanner.bytes, old(scanner.at)), r, scanner.at, scanner.error)
  {
    hide S.U8;
    var level := scanner.ReadU8();
    if level == None { return None; }
    var percent := scanner.ReadU8();
    if percent == None { return None; }
    r := Some(Skill(level.value, percent.value));
  }

  method DecodePlayerSkills(scanner: MapScanner) returns (r: Option<ServerUpdate>)
    requires scanner.error == None
    modifies scanner
    ensures Reads(C.DecodePlayerSkills(scanner.bytes, old(scanner.at)), r, scanner.at, scanner.error)
  {
    hide C.ReadSkill;
    var fist := ReadSkill(scanner);
    if fist == None { return None; }
    var club := ReadSkill(scanner);
    if club == None { return None; }
    var sword := ReadSkill(scanner);
    if sword == None { return None; }
    var axe := ReadSkill(scanner);
    if axe == None { return None; }
    var distance := ReadSkill(scanner);
    if distance == None { return None; }
    var shielding := ReadSkill(scanner);
    if shielding == None { return None; }
    var fishing := ReadSkill(scanner);
    if fishing == None { return None; }
    r := Some(PlayerSkills(Skills(fist.value, club.value, sword.value, axe.value, distance.value, shielding.value,
      fishing.value)));
  }

  method DecodePlayerState(scanner: MapScanner) returns (r: Option<ServerUpdate>)
    requires scanner.error == None
    modifies scanner
    ensures Reads(C.DecodePlayerState(scanner.bytes, old(scanner.at)), r, scanner.at, scanner.error)
  {
    hide S.U8;
    var flags := scanner.ReadU8();
    if flags == None { return None; }
    r := Some(PlayerState(flags.value));
  }

  method DecodeInventory(scanner: MapScanner, cleared: bool) returns (r: Option<ServerUpdate>)
    requires scanner.error == None
    modifies scanner
    ensures Reads(C.DecodeInventory(scanner.bytes, old(scanner.at), cleared, scanner.types), r, scanner.at,
      scanner.error)
  {
    hide S.U8, S.ReadItem;
    var slot := scanner.ReadU8();
    if slot == None { return None; }
    if slot.value < C.FIRST_SLOT || slot.value > C.LAST_SLOT { scanner.Fail(S.InvalidInventorySlot); return None; }
    if cleared { return Some(Inventory(slot.value, None)); }
    var item := scanner.ReadItem();
    return if item == None then None else Some(Inventory(slot.value, Some(item.value)));
  }

  method ReadOpened(scanner: MapScanner) returns (r: Option<ContainerChange>)
    requires scanner.error == None
    modifies scanner
    ensures Reads(C.ReadOpened(scanner.bytes, old(scanner.at), scanner.types), r, scanner.at, scanner.error)
  {
    hide S.U8, S.U16, S.Text, S.ReadItem;
    var typeId := scanner.ReadU16();
    if typeId == None { return None; }
    var name := scanner.ReadText();
    if name == None { return None; }
    var capacity := scanner.ReadU8();
    if capacity == None { return None; }
    var parent := scanner.ReadU8();
    if parent == None { return None; }
    var count := scanner.ReadU8();
    if count == None { return None; }
    if count.value > MAX_OBJECTS_PER_CONTAINER { scanner.Fail(S.InvalidContainerSlot); return None; }
    var items: seq<ItemThing> := [];
    ghost var start := scanner.at;
    for index := 0 to count.value
      invariant scanner.error == None
      invariant C.ReadItems(scanner.bytes, start, count.value, scanner.types, [])
        == C.ReadItems(scanner.bytes, scanner.at, count.value - index, scanner.types, items)
    {
      var item := scanner.ReadItem();
      if item == None { return None; }
      items := items + [item.value];
    }
    r := Some(Opened(typeId.value, name.value, capacity.value, parent.value != 0, items));
  }

  method ReadContainerSlot(scanner: MapScanner) returns (r: Option<byte>)
    requires scanner.error == None
    modifies scanner
    ensures Reads(C.ReadContainerSlot(scanner.bytes, old(scanner.at)), r, scanner.at, scanner.error)
  {
    hide S.U8;
    var slot := scanner.ReadU8();
    if slot == None { return None; }
    if slot.value >= MAX_OBJECTS_PER_CONTAINER { scanner.Fail(S.InvalidContainerSlot); return None; }
    r := Some(slot.value);
  }

  method ReadChange(scanner: MapScanner, opcode: byte) returns (r: Option<ContainerChange>)
    requires scanner.error == None
    modifies scanner
    ensures Reads(C.ReadChange(scanner.bytes, old(scanner.at), opcode, scanner.types), r, scanner.at, scanner.error)
  {
    hide S.ReadItem, C.ReadContainerSlot, C.ReadOpened;
    if opcode == 111 { return Some(Closed); }
    if opcode == 112 {
      var item := scanner.ReadItem();
      return if item == None then None else Some(Created(item.value));
    }
    if opcode == 113 || opcode == 114 {
      var slot := ReadContainerSlot(scanner);
      if slot == None { return None; }
      if opcode == 114 { return Some(Deleted(slot.value)); }
      var item := scanner.ReadItem();
      return if item == None then None else Some(Changed(slot.value, item.value));
    }
    r := ReadOpened(scanner);
  }

  method DecodeContainer(scanner: MapScanner, opcode: byte) returns (r: Option<ServerUpdate>)
    requires scanner.error == None
    modifies scanner
    ensures Reads(C.DecodeContainer(scanner.bytes, old(scanner.at), opcode, scanner.types), r, scanner.at,
      scanner.error)
  {
    hide C.ReadChange, S.U8;
    var number := scanner.ReadU8();
    if number == None { return None; }
    if number.value >= C.MAX_OPEN_CONTAINERS { scanner.Fail(S.InvalidContainerNumber); return None; }
    var change := ReadChange(scanner, opcode);
    if change == None { return None; }
    r := Some(Container(number.value, change.value));
  }

  method ReadOffer(scanner: MapScanner, own: bool) returns (r: Option<TradeChange>)
    requires scanner.error == None
    modifies scanner
    ensures Reads(C.ReadOffer(scanner.bytes, old(scanner.at), own, scanner.types), r, scanner.at, scanner.error)
  {
    hide S.U8, S.Text, S.ReadItem;
    var name := scanner.ReadText();
    if name == None { return None; }
    var count := scanner.ReadU8();
    if count == None { return None; }
    var items: seq<ItemThing> := [];
    ghost var start := scanner.at;
    for index := 0 to count.value
      invariant scanner.error == None
      invariant C.ReadItems(scanner.bytes, start, count.value, scanner.types, [])
        == C.ReadItems(scanner.bytes, scanner.at, count.value - index, scanner.types, items)
    {
      var item := scanner.ReadItem();
      if item == None { return None; }
      items := items + [item.value];
    }
    r := Some(Offered(own, name.value, items));
  }

  method DecodeTrade(scanner: MapScanner, opcode: byte) returns (r: Option<ServerUpdate>)
    requires scanner.error == None
    modifies scanner
    ensures Reads(C.DecodeTrade(scanner.bytes, old(scanner.at), opcode, scanner.types), r, scanner.at, scanner.error)
  {
    hide C.ReadOffer;
    if opcode == 127 { return Some(Trade(TradeClosed)); }
    var offer := ReadOffer(scanner, opcode == 125);
    return if offer == None then None else Some(Trade(offer.value));
  }

  method ReadChannelEntry(scanner: MapScanner) returns (r: Option<ChannelEntry>)
    requires scanner.error == None
    modifies scanner
    ensures Reads(C.ReadChannelEntry(scanner.bytes, old(scanner.at)), r, scanner.at, scanner.error)
  {
    hide S.U16, S.Text;
    var id := scanner.ReadU16();
    if id == None { return None; }
    var name := scanner.ReadText();
    if name == None { return None; }
    r := Some(ChannelEntry(id.value, name.value));
  }

  method ReadChannelChange(scanner: MapScanner, opcode: byte) returns (r: Option<ChannelChange>)
    requires scanner.error == None
    modifies scanner
    ensures Reads(C.ReadChannelChange(scanner.bytes, old(scanner.at), opcode), r, scanner.at, scanner.error)
  {
    hide S.U8, S.U16, S.Text, C.ReadChannelEntry;
    if opcode == 179 {
      var channel := scanner.ReadU16();
      return if channel == None then None else Some(ChannelClosed(channel.value));
    }
    if opcode == 172 || opcode == 178 {
      var entry := ReadChannelEntry(scanner);
      return if entry == None then None else Some(ChannelOpened(opcode == 178, entry.value.id, entry.value.name));
    }
    if opcode == 173 {
      var name := scanner.ReadText();
      return if name == None then None else Some(PrivateOpened(name.value));
    }
    var count := scanner.ReadU8();
    if count == None { return None; }
    var entries: seq<ChannelEntry> := [];
    ghost var start := scanner.at;
    for index := 0 to count.value
      invariant scanner.error == None
      invariant C.ReadEntries(scanner.bytes, start, count.value, [])
        == C.ReadEntries(scanner.bytes, scanner.at, count.value - index, entries)
    {
      var entry := ReadChannelEntry(scanner);
      if entry == None { return None; }
      entries := entries + [entry.value];
    }
    r := Some(ChannelList(entries));
  }

  method DecodeChannel(scanner: MapScanner, opcode: byte) returns (r: Option<ServerUpdate>)
    requires scanner.error == None
    modifies scanner
    ensures Reads(C.DecodeChannel(scanner.bytes, old(scanner.at), opcode), r, scanner.at, scanner.error)
  {
    hide C.ReadChannelChange;
    var change := ReadChannelChange(scanner, opcode);
    return if change == None then None else Some(Channel(change.value));
  }

  method DecodeEditText(scanner: MapScanner) returns (r: Option<ServerUpdate>)
    requires scanner.error == None
    modifies scanner
    ensures Reads(C.DecodeEditText(scanner.bytes, old(scanner.at)), r, scanner.at, scanner.error)
  {
    hide S.U16, S.U32, S.Text;
    var objectId := scanner.ReadU32();
    if objectId == None { return None; }
    var typeId := scanner.ReadU16();
    if typeId == None { return None; }
    var maxLength := scanner.ReadU16();
    if maxLength == None { return None; }
    var text := scanner.ReadText();
    if text == None { return None; }
    var editor := scanner.ReadText();
    if editor == None { return None; }
    r := Some(Editor(TextEditor(objectId.value, typeId.value, maxLength.value, text.value, editor.value)));
  }

  method DecodeEditList(scanner: MapScanner) returns (r: Option<ServerUpdate>)
    requires scanner.error == None
    modifies scanner
    ensures Reads(C.DecodeEditList(scanner.bytes, old(scanner.at)), r, scanner.at, scanner.error)
  {
    hide S.U8, S.U32, S.Text;
    var kind := scanner.ReadU8();
    if kind == None { return None; }
    var id := scanner.ReadU32();
    if id == None { return None; }
    var text := scanner.ReadText();
    if text == None { return None; }
    r := Some(Editor(ListEditor(kind.value, id.value, text.value)));
  }

  method DecodeBuddy(scanner: MapScanner, opcode: byte) returns (r: Option<ServerUpdate>)
    requires scanner.error == None
    modifies scanner
    ensures Reads(C.DecodeBuddy(scanner.bytes, old(scanner.at), opcode), r, scanner.at, scanner.error)
  {
    hide S.U8, S.U32, S.Text;
    var character := scanner.ReadU32();
    if character == None { return None; }
    if opcode != 210 { return Some(Buddy(character.value, None, opcode == 211)); }
    var name := scanner.ReadText();
    if name == None { return None; }
    var online := scanner.ReadU8();
    return if online == None then None else Some(Buddy(character.value, Some(name.value), online.value != 0));
  }

  method DecodeOutfitDialog(scanner: MapScanner) returns (r: Option<ServerUpdate>)
    requires scanner.error == None
    modifies scanner
    ensures Reads(C.DecodeOutfitDialog(scanner.bytes, old(scanner.at)), r, scanner.at, scanner.error)
  {
    hide S.ReadOutfit, S.U16;
    var current := scanner.ReadOutfit();
    if current == None { return None; }
    var first := scanner.ReadU16();
    if first == None { return None; }
    var last := scanner.ReadU16();
    if last == None { return None; }
    r := Some(OutfitDialog(current.value, first.value, last.value));
  }

  // ---- commands that move the viewport -------------------------------------------------------

  method DecodeFullScreen(scanner: MapScanner) returns (r: Option<C.Stepped>)
    requires scanner.error == None && scanner.skip == 0 && scanner.describedTiles == 0 && scanner.skippedTiles == 0
    modifies scanner
    ensures Reads(C.DecodeFullScreen(scanner.bytes, old(scanner.at), scanner.types), r, scanner.at, scanner.error)
    ensures r.Some? ==> scanner.describedTiles + scanner.skippedTiles == |r.value.update.floors| * (WIDTH * HEIGHT)
  {
    hide S.ReadPosition, S.ReadFloors, FloorsOf, ViewportFloorRange;
    C.PositionFloor(scanner.bytes, scanner.at);
    var player := scanner.ReadPosition();
    if player == None { return None; }
    var range := ViewportFloorRange(player.value.z);
    var floors := scanner.ReadFloors(player.value, FullRectangle(player.value), range);
    if floors == None { return None; }
    r := Some(C.Stepped(FullScreen(WindowAt(player.value), floors.value, scanner.describedTiles, scanner.skippedTiles),
      player.value));
  }

  method DecodeRow(scanner: MapScanner, anchor: MapPosition, direction: Direction) returns (r: Option<C.Stepped>)
    requires scanner.error == None && scanner.skip == 0
    modifies scanner
    ensures Reads(C.DecodeRow(scanner.bytes, old(scanner.at), anchor, direction, scanner.types), r, scanner.at,
      scanner.error)
  {
    hide S.ReadFloors, FloorsOf, ViewportFloorRange;
    var next := StepPosition(anchor, direction);
    if next.z > MAX_FLOOR || next.z < 0 { scanner.Fail(S.InvalidPlayerFloor); return None; }
    var floors := scanner.ReadFloors(next, RowRectangle(next, direction), ViewportFloorRange(next.z));
    return if floors == None then None else Some(C.Stepped(Row(direction, floors.value), next));
  }

  method DecodeFloorChange(scanner: MapScanner, anchor: MapPosition, up: bool) returns (r: Option<C.Stepped>)
    requires scanner.error == None && scanner.skip == 0
    modifies scanner
    ensures Reads(C.DecodeFloorChange(scanner.bytes, old(scanner.at), anchor, up, scanner.types), r, scanner.at,
      scanner.error)
  {
    hide S.ReadFloors, FloorsOf, FloorChangeRange;
    var next := FloorStep(anchor, up);
    if next.z > MAX_FLOOR || next.z < 0 { scanner.Fail(S.InvalidPlayerFloor); return None; }
    var floors := scanner.ReadFloors(next, FullRectangle(next), FloorChangeRange(next.z, up));
    return if floors == None then None else Some(C.Stepped(FloorChange(up, floors.value), next));
  }

  method DecodeMoving(scanner: MapScanner, anchor: MapPosition, opcode: byte) returns (r: Option<C.Stepped>)
    requires C.Moves(opcode)
    requires scanner.error == None && scanner.skip == 0 && scanner.describedTiles == 0 && scanner.skippedTiles == 0
    modifies scanner
    ensures Reads(C.DecodeMoving(scanner.bytes, old(scanner.at), anchor, opcode, scanner.types), r, scanner.at,
      scanner.error)
  {
    hide C.DecodeFullScreen, C.DecodeRow, C.DecodeFloorChange;
    if opcode == 100 {
      r := DecodeFullScreen(scanner);
    } else if opcode <= 104 {
      var direction := if opcode == 101 then North else if opcode == 102 then East else if opcode == 103 then South
        else West;
      r := DecodeRow(scanner, anchor, direction);
    } else {
      r := DecodeFloorChange(scanner, anchor, opcode == 190);
    }
  }

  method DecodeStill(scanner: MapScanner, opcode: byte) returns (r: Option<ServerUpdate>)
    requires C.Supported(opcode) && !C.Moves(opcode)
    requires scanner.error == None && scanner.skip == 0
    modifies scanner
    ensures Reads(C.DecodeStill(scanner.bytes, old(scanner.at), opcode, scanner.types), r, scanner.at, scanner.error)
  {
    hide C.DecodeFieldData, C.DecodeAddField, C.DecodeChangeField, C.DecodeDeleteField, C.DecodeMoveCreature,
      C.DecodeSnapback, C.DecodeTalk, C.DecodeMessage, C.DecodeAmbient, C.DecodeGraphicalEffect, C.DecodeTextualEffect,
      C.DecodeMissileEffect, C.DecodeMarkCreature, C.DecodeCreatureAttribute, C.DecodePlayerState, C.DecodeInventory,
      C.DecodeContainer, C.DecodeOutfitDialog, C.DecodeBuddy, C.DecodePlayerData, C.DecodePlayerSkills, C.DecodeTrade,
      C.DecodeChannel, C.DecodeEditText, C.DecodeEditList;
    if opcode == 105 { r := DecodeFieldData(scanner); }
    else if opcode == 106 { r := DecodeAddField(scanner); }
    else if opcode == 107 { r := DecodeChangeField(scanner); }
    else if opcode == 108 { r := DecodeDeleteField(scanner); }
    else if opcode == 109 { r := DecodeMoveCreature(scanner); }
    else if opcode == 181 { r := DecodeSnapback(scanner); }
    else if opcode == 170 { r := DecodeTalk(scanner); }
    else if opcode == 180 { r := DecodeMessage(scanner); }
    else if opcode == 30 { r := Some(Ping); }
    else if opcode == 163 { r := Some(ClearTarget); }
    else if opcode == 130 { r := DecodeAmbient(scanner); }
    else if opcode == 131 { r := DecodeGraphicalEffect(scanner); }
    else if opcode == 132 { r := DecodeTextualEffect(scanner); }
    else if opcode == 133 { r := DecodeMissileEffect(scanner); }
    else if opcode == 134 { r := DecodeMarkCreature(scanner); }
    else if 140 <= opcode <= 145 { r := DecodeCreatureAttribute(scanner, opcode); }
    else if opcode == 160 { r := DecodePlayerData(scanner); }
    else if opcode == 161 { r := DecodePlayerSkills(scanner); }
    else if opcode == 162 { r := DecodePlayerState(scanner); }
    else if opcode == 120 || opcode == 121 { r := DecodeInventory(scanner, opcode == 121); }
    else if 110 <= opcode <= 114 { r := DecodeContainer(scanner, opcode); }
    else if 125 <= opcode <= 127 { r := DecodeTrade(scanner, opcode); }
    else if 171 <= opcode <= 173 || opcode == 178 || opcode == 179 { r := DecodeChannel(scanner, opcode); }
    else if opcode == 150 { r := DecodeEditText(scanner); }
    else if opcode == 151 { r := DecodeEditList(scanner); }
    else if opcode == 200 { r := DecodeOutfitDialog(scanner); }
    else { r := DecodeBuddy(scanner, opcode); }
  }

  /** One command at `offset`; the result carries where the next one starts. */
  method DecodeServerUpdate(
      bytes: seq<byte>, offset: nat, anchor: MapPosition, types: Types) returns (r: S.Parse<C.Stepped>)
    ensures r == C.Decode(bytes, offset, anchor, types)
  {
    hide C.DecodeMoving, C.DecodeStill;
    if C.EmptyTable(types) { return S.Fail(S.EmptyObjectTypeTable); }
    if offset >= |bytes| { return S.Fail(S.Truncated); }
    var opcode := bytes[offset];
    if !C.Supported(opcode) { return S.Ok(C.Stepped(Unsupported, anchor), offset); }
    var scanner := new MapScanner(bytes, offset + 1, types);
    if C.Moves(opcode) {
      var stepped := DecodeMoving(scanner, anchor, opcode);
      return if stepped == None then S.Fail(scanner.error.value) else S.Ok(stepped.value, scanner.at);
    }
    var update := DecodeStill(scanner, opcode);
    return if update == None then S.Fail(scanner.error.value) else S.Ok(C.Stepped(update.value, anchor), scanner.at);
  }
}
