/** The command walker of clientcore/src/movement.cpp and the command bodies of
    clientcore/src/player_state.cpp, as a function of the payload and a position in it. */
module Commands {
  import opened World
  import opened Viewport
  import opened ObjectTypes
  import opened Updates
  import opened MapScan

  const MAX_OPEN_CONTAINERS := 16
  const FIRST_SLOT := 1
  const LAST_SLOT := 10

  /** An update and the position the viewport is centred on after it. */
  datatype Stepped = Stepped(update: ServerUpdate, next: MapPosition)

  predicate EmptyTable(types: Types) {
    forall i :: 0 <= i < |types| ==> !types[i].known
  }

  // ---- map commands -----------------------------------------------------------------------

  function DecodeFullScreen(s: seq<byte>, at: nat, types: Types): Parse<Stepped> {
    var (player, at1) :- ReadPosition(s, at);
    PositionFloor(s, at);
    var (floors, at2) :- ReadFloors(s, at1, types, player, FullRectangle(player),
      FloorsOf(ViewportFloorRange(player.z)));
    var area := |floors| * (WIDTH * HEIGHT);
    var described := TileCount(floors);
    Ok(Stepped(FullScreen(WindowAt(player), floors, described, if described <= area then area - described else 0),
      player), at2)
  }

  lemma PositionFloor(s: seq<byte>, at: nat)
    ensures ReadPosition(s, at).Ok? ==> ValidAnchor(ReadPosition(s, at).value)
  {
  }

  function DecodeRow(s: seq<byte>, at: nat, anchor: MapPosition, direction: Direction, types: Types): Parse<Stepped> {
    var next := StepPosition(anchor, direction);
    if !ValidAnchor(next) then Fail(InvalidPlayerFloor) else
      var (floors, at1) :- ReadFloors(s, at, types, next, RowRectangle(next, direction),
        FloorsOf(ViewportFloorRange(next.z)));
      Ok(Stepped(Row(direction, floors), next), at1)
  }

  function DecodeFloorChange(s: seq<byte>, at: nat, anchor: MapPosition, up: bool, types: Types): Parse<Stepped> {
    var next := FloorStep(anchor, up);
    if !ValidAnchor(next) then Fail(InvalidPlayerFloor) else
      var (floors, at1) :- ReadFloors(s, at, types, next, FullRectangle(next), FloorsOf(FloorChangeRange(next.z, up)));
      Ok(Stepped(FloorChange(up, floors), next), at1)
  }

  function DecodeFieldData(s: seq<byte>, at: nat, types: Types): Parse<ServerUpdate> {
    var (p, at1) :- ReadPosition(s, at);
    var (scanned, at2) :- Scan(s, at1, types, [p], ScanState(0, []));
    if scanned.skip != 0 then Fail(SkipRunExceedsWindow)
    else Ok(FieldData(if scanned.tiles == [] then MapTile(p, []) else scanned.tiles[0]), at2)
  }

  function DecodeAddField(s: seq<byte>, at: nat, types: Types): Parse<ServerUpdate> {
    var (p, at1) :- ReadPosition(s, at);
    var (thing, at2) :- ReadThing(s, at1, types);
    Ok(AddField(p, thing), at2)
  }

  function ReadStackIndex(s: seq<byte>, at: nat): Parse<byte> {
    var (stack, at1) :- U8(s, at);
    if stack >= MAX_OBJECTS_PER_POINT then Fail(InvalidStackIndex) else Ok(stack, at1)
  }

  function DecodeChangeField(s: seq<byte>, at: nat, types: Types): Parse<ServerUpdate> {
    var (p, at1) :- ReadPosition(s, at);
    var (stack, at2) :- ReadStackIndex(s, at1);
    var (thing, at3) :- ReadThing(s, at2, types);
    Ok(ChangeField(p, stack, thing), at3)
  }

  function DecodeDeleteField(s: seq<byte>, at: nat): Parse<ServerUpdate> {
    var (p, at1) :- ReadPosition(s, at);
    var (stack, at2) :- ReadStackIndex(s, at1);
    Ok(DeleteField(p, stack), at2)
  }

  function DecodeMoveCreature(s: seq<byte>, at: nat): Parse<ServerUpdate> {
    var (origin, at1) :- ReadPosition(s, at);
    var (stack, at2) :- ReadStackIndex(s, at1);
    var (destination, at3) :- ReadPosition(s, at2);
    Ok(MoveCreature(origin, stack, destination), at3)
  }

  // ---- talk: the mode selects the tail -------------------------------------------------------

  datatype TalkLayout = Positional | ChannelTail | PlainTail | UnsupportedTail

  function LayoutForMode(mode: byte): TalkLayout {
    if 1 <= mode <= 3 || mode == 16 || mode == 17 then Positional
    else if mode == 5 || mode == 10 || mode == 12 || mode == 14 then ChannelTail
    else if mode == 4 || 6 <= mode <= 9 || mode == 11 then PlainTail
    else UnsupportedTail
  }

  const GAMEMASTER_REQUEST := 6

  function ReadTalkTail(s: seq<byte>, at: nat, mode: byte): Parse<TalkTail> {
    match LayoutForMode(mode)
    case UnsupportedTail => Fail(UnknownTalkMode)
    case Positional =>
      var (x, at1) :- U16(s, at);
      var (y, at2) :- U16(s, at1);
      var (z, at3) :- U8(s, at2);
      Ok(TalkTail.At(MapPosition(x, y, z)), at3)
    case ChannelTail =>
      var (channel, at1) :- U16(s, at);
      Ok(InChannel(channel), at1)
    case PlainTail =>
      if mode == GAMEMASTER_REQUEST then
        var (data, at1) :- U32(s, at);
        Ok(Request(data), at1)
      else Ok(Plain, at)
  }

  function DecodeTalk(s: seq<byte>, at: nat): Parse<ServerUpdate> {
    var (statement, at1) :- U32(s, at);
    var (speaker, at2) :- Text(s, at1);
    var (mode, at3) :- U8(s, at2);
    var (tail, at4) :- ReadTalkTail(s, at3, mode);
    var (text, at5) :- Text(s, at4);
    Ok(Talk(statement, speaker, mode, tail, text), at5)
  }

  function DecodeMessage(s: seq<byte>, at: nat): Parse<ServerUpdate> {
    var (mode, at1) :- U8(s, at);
    var (text, at2) :- Text(s, at1);
    Ok(Message(mode, text), at2)
  }

  function DecodeSnapback(s: seq<byte>, at: nat): Parse<ServerUpdate> {
    var (facing, at1) :- U8(s, at);
    Ok(Snapback(facing), at1)
  }

  // ---- effects and creature attributes ---------------------------------------------------------

  function DecodeAmbient(s: seq<byte>, at: nat): Parse<ServerUpdate> {
    var (brightness, at1) :- U8(s, at);
    var (colour, at2) :- U8(s, at1);
    Ok(Ambient(brightness, colour), at2)
  }

  function DecodeGraphicalEffect(s: seq<byte>, at: nat): Parse<ServerUpdate> {
    var (p, at1) :- ReadPosition(s, at);
    var (effect, at2) :- U8(s, at1);
    Ok(GraphicalEffect(p, effect), at2)
  }

  function DecodeTextualEffect(s: seq<byte>, at: nat): Parse<ServerUpdate> {
    var (p, at1) :- ReadPosition(s, at);
    var (colour, at2) :- U8(s, at1);
    var (text, at3) :- Text(s, at2);
    Ok(TextualEffect(p, colour, text), at3)
  }

  function DecodeMissileEffect(s: seq<byte>, at: nat): Parse<ServerUpdate> {
    var (origin, at1) :- ReadPosition(s, at);
    var (destination, at2) :- ReadPosition(s, at1);
    var (effect, at3) :- U8(s, at2);
    Ok(MissileEffect(origin, destination, effect), at3)
  }

  function DecodeMarkCreature(s: seq<byte>, at: nat): Parse<ServerUpdate> {
    var (id, at1) :- U32(s, at);
    var (colour, at2) :- U8(s, at1);
    Ok(MarkCreature(id, colour), at2)
  }

  function ReadAttribute(s: seq<byte>, at: nat, opcode: byte): Parse<Attribute> {
    if opcode == 140 then
      var (health, at1) :- U8(s, at);
      Ok(Health(health), at1)
    else if opcode == 141 then
      var (brightness, at1) :- U8(s, at);
      var (colour, at2) :- U8(s, at1);
      Ok(Light(brightness, colour), at2)
    else if opcode == 142 then
      var (outfit, at1) :- ReadOutfit(s, at);
      Ok(Look(outfit), at1)
    else if opcode == 143 then
      var (speed, at1) :- U16(s, at);
      Ok(Speed(speed), at1)
    else if opcode == 144 then
      var (skull, at1) :- U8(s, at);
      Ok(Skull(skull), at1)
    else
      var (party, at1) :- U8(s, at);
      Ok(Party(party), at1)
  }

  function DecodeCreatureAttribute(s: seq<byte>, at: nat, opcode: byte): Parse<ServerUpdate> {
    var (id, at1) :- U32(s, at);
    var (attribute, at2) :- ReadAttribute(s, at1, opcode);
    Ok(CreatureAttribute(id, attribute), at2)
  }

  function ReadStats(s: seq<byte>, at: nat): Parse<Stats> {
    var (hitpoints, at1) :- U16(s, at);
    var (maxHitpoints, at2) :- U16(s, at1);
    var (capacity, at3) :- U16(s, at2);
    var (experience, at4) :- U32(s, at3);
    var (level, at5) :- U16(s, at4);
    var (levelPercent, at6) :- U8(s, at5);
    var (mana, at7) :- U16(s, at6);
    var (maxMana, at8) :- U16(s, at7);
    var (magicLevel, at9) :- U8(s, at8);
    var (magicLevelPercent, at10) :- U8(s, at9);
    var (soulPoints, at11) :- U8(s, at10);
    Ok(Stats(hitpoints, maxHitpoints, capacity, experience, level, levelPercent, mana, maxMana, magicLevel,
      magicLevelPercent, soulPoints), at11)
  }

  function DecodePlayerData(s: seq<byte>, at: nat): Parse<ServerUpdate> {
    var (stats, at1) :- ReadStats(s, at);
    Ok(PlayerData(stats), at1)
  }

  function ReadSkill(s: seq<byte>, at: nat): Parse<Skill> {
    var (level, at1) :- U8(s, at);
    var (percent, at2) :- U8(s, at1);
    Ok(Skill(level, percent), at2)
  }

  function DecodePlayerSkills(s: seq<byte>, at: nat): Parse<ServerUpdate> {
    var (fist, at1) :- ReadSkill(s, at);
    var (club, at2) :- ReadSkill(s, at1);
    var (sword, at3) :- ReadSkill(s, at2);
    var (axe, at4) :- ReadSkill(s, at3);
    var (distance, at5) :- ReadSkill(s, at4);
    var (shielding, at6) :- ReadSkill(s, at5);
    var (fishing, at7) :- ReadSkill(s, at6);
    Ok(PlayerSkills(Skills(fist, club, sword, axe, distance, shielding, fishing)), at7)
  }

  function DecodePlayerState(s: seq<byte>, at: nat): Parse<ServerUpdate> {
    var (flags, at1) :- U8(s, at);
    Ok(PlayerState(flags), at1)
  }

  // ---- inventory, containers, buddies ------------------------------------------------------------

  function DecodeInventory(s: seq<byte>, at: nat, cleared: bool, types: Types): Parse<ServerUpdate> {
    var (slot, at1) :- U8(s, at);
    if slot < FIRST_SLOT || slot > LAST_SLOT then Fail(InvalidInventorySlot)
    else if cleared then Ok(Inventory(slot, None), at1)
    else
      var (item, at2) :- ReadItem(s, at1, types);
      Ok(Inventory(slot, Some(item)), at2)
  }

  /** A counted list: `count` items after those already read. */
  function ReadItems(s: seq<byte>, at: nat, count: nat, types: Types, items: seq<ItemThing>): Parse<seq<ItemThing>>
    decreases count
  {
    if count == 0 then Ok(items, at) else
      var (item, at1) :- ReadItem(s, at, types);
      ReadItems(s, at1, count - 1, types, items + [item])
  }

  function ReadOpened(s: seq<byte>, at: nat, types: Types): Parse<ContainerChange> {
    var (typeId, at1) :- U16(s, at);
    var (name, at2) :- Text(s, at1);
    var (capacity, at3) :- U8(s, at2);
    var (parent, at4) :- U8(s, at3);
    var (count, at5) :- U8(s, at4);
    if count > MAX_OBJECTS_PER_CONTAINER then Fail(InvalidContainerSlot) else
      var (items, at6) :- ReadItems(s, at5, count, types, []);
      Ok(Opened(typeId, name, capacity, parent != 0, items), at6)
  }

  function ReadContainerSlot(s: seq<byte>, at: nat): Parse<byte> {
    var (slot, at1) :- U8(s, at);
    if slot >= MAX_OBJECTS_PER_CONTAINER then Fail(InvalidContainerSlot) else Ok(slot, at1)
  }

  function ReadChange(s: seq<byte>, at: nat, opcode: byte, types: Types): Parse<ContainerChange> {
    if opcode == 111 then Ok(Closed, at)
    else if opcode == 112 then
      var (item, at1) :- ReadItem(s, at, types);
      Ok(Created(item), at1)
    else if opcode == 113 then
      var (slot, at1) :- ReadContainerSlot(s, at);
      var (item, at2) :- ReadItem(s, at1, types);
      Ok(Changed(slot, item), at2)
    else if opcode == 114 then
      var (slot, at1) :- ReadContainerSlot(s, at);
      Ok(Deleted(slot), at1)
    else ReadOpened(s, at, types)
  }

  function DecodeContainer(s: seq<byte>, at: nat, opcode: byte, types: Types): Parse<ServerUpdate> {
    var (number, at1) :- U8(s, at);
    if number >= MAX_OPEN_CONTAINERS then Fail(InvalidContainerNumber) else
      var (change, at2) :- ReadChange(s, at1, opcode, types);
      Ok(Container(number, change), at2)
  }

  // ---- trade, channels, editors ------------------------------------------------------------------

  function ReadOffer(s: seq<byte>, at: nat, own: bool, types: Types): Parse<TradeChange> {
    var (name, at1) :- Text(s, at);
    var (count, at2) :- U8(s, at1);
    var (items, at3) :- ReadItems(s, at2, count, types, []);
    Ok(Offered(own, name, items), at3)
  }

  function DecodeTrade(s: seq<byte>, at: nat, opcode: byte, types: Types): Parse<ServerUpdate> {
    if opcode == 127 then Ok(Trade(TradeClosed), at) else
      var (offer, at1) :- ReadOffer(s, at, opcode == 125, types);
      Ok(Trade(offer), at1)
  }

  function ReadChannelEntry(s: seq<byte>, at: nat): Parse<ChannelEntry> {
    var (id, at1) :- U16(s, at);
    var (name, at2) :- Text(s, at1);
    Ok(ChannelEntry(id, name), at2)
  }

  function ReadEntries(s: seq<byte>, at: nat, count: nat, entries: seq<ChannelEntry>): Parse<seq<ChannelEntry>>
    decreases count
  {
    if count == 0 then Ok(entries, at) else
      var (entry, at1) :- ReadChannelEntry(s, at);
      ReadEntries(s, at1, count - 1, entries + [entry])
  }

  function ReadChannelChange(s: seq<byte>, at: nat, opcode: byte): Parse<ChannelChange> {
    if opcode == 179 then
      var (channel, at1) :- U16(s, at);
      Ok(ChannelClosed(channel), at1)
    else if opcode == 172 || opcode == 178 then
      var (entry, at1) :- ReadChannelEntry(s, at);
      Ok(ChannelOpened(opcode == 178, entry.id, entry.name), at1)
    else if opcode == 173 then
      var (name, at1) :- Text(s, at);
      Ok(PrivateOpened(name), at1)
    else
      var (count, at1) :- U8(s, at);
      var (entries, at2) :- ReadEntries(s, at1, count, []);
      Ok(ChannelList(entries), at2)
  }

  function DecodeChannel(s: seq<byte>, at: nat, opcode: byte): Parse<ServerUpdate> {
    var (change, at1) :- ReadChannelChange(s, at, opcode);
    Ok(Channel(change), at1)
  }

  function DecodeEditText(s: seq<byte>, at: nat): Parse<ServerUpdate> {
    var (objectId, at1) :- U32(s, at);
    var (typeId, at2) :- U16(s, at1);
    var (maxLength, at3) :- U16(s, at2);
    var (text, at4) :- Text(s, at3);
    var (editor, at5) :- Text(s, at4);
    Ok(Editor(TextEditor(objectId, typeId, maxLength, text, editor)), at5)
  }

  function DecodeEditList(s: seq<byte>, at: nat): Parse<ServerUpdate> {
    var (kind, at1) :- U8(s, at);
    var (id, at2) :- U32(s, at1);
    var (text, at3) :- Text(s, at2);
    Ok(Editor(ListEditor(kind, id, text)), at3)
  }

  function DecodeBuddy(s: seq<byte>, at: nat, opcode: byte): Parse<ServerUpdate> {
    var (character, at1) :- U32(s, at);
    if opcode == 210 then
      var (name, at2) :- Text(s, at1);
      var (online, at3) :- U8(s, at2);
      Ok(Buddy(character, Some(name), online != 0), at3)
    else Ok(Buddy(character, None, opcode == 211), at1)
  }

  function DecodeOutfitDialog(s: seq<byte>, at: nat): Parse<ServerUpdate> {
    var (current, at1) :- ReadOutfit(s, at);
    var (first, at2) :- U16(s, at1);
    var (last, at3) :- U16(s, at2);
    Ok(OutfitDialog(current, first, last), at3)
  }

  // ---- the walker -----------------------------------------------------------------------------

  predicate Moves(opcode: byte) {
    opcode == 100 || 101 <= opcode <= 104 || opcode == 190 || opcode == 191
  }

  /** The commands that move the viewport. */
  function DecodeMoving(s: seq<byte>, at: nat, anchor: MapPosition, opcode: byte, types: Types): Parse<Stepped>
    requires Moves(opcode)
  {
    if opcode == 100 then DecodeFullScreen(s, at, types)
    else if opcode == 101 then DecodeRow(s, at, anchor, North, types)
    else if opcode == 102 then DecodeRow(s, at, anchor, East, types)
    else if opcode == 103 then DecodeRow(s, at, anchor, South, types)
    else if opcode == 104 then DecodeRow(s, at, anchor, West, types)
    else DecodeFloorChange(s, at, anchor, opcode == 190, types)
  }

  predicate Supported(opcode: byte) {
    Moves(opcode) || opcode == 30 || 105 <= opcode <= 114 || opcode == 120 || opcode == 121 || 125 <= opcode <= 127
    || 130 <= opcode <= 134 || 140 <= opcode <= 145 || opcode == 150 || opcode == 151 || 160 <= opcode <= 163
    || 170 <= opcode <= 173 || 178 <= opcode <= 181 || opcode == 200 || 210 <= opcode <= 212
  }

  /** The commands that leave the viewport where it is. */
  function DecodeStill(s: seq<byte>, at: nat, opcode: byte, types: Types): Parse<ServerUpdate>
    requires Supported(opcode) && !Moves(opcode)
  {
    if opcode == 105 then DecodeFieldData(s, at, types)
    else if opcode == 106 then DecodeAddField(s, at, types)
    else if opcode == 107 then DecodeChangeField(s, at, types)
    else if opcode == 108 then DecodeDeleteField(s, at)
    else if opcode == 109 then DecodeMoveCreature(s, at)
    else if opcode == 181 then DecodeSnapback(s, at)
    else if opcode == 170 then DecodeTalk(s, at)
    else if opcode == 180 then DecodeMessage(s, at)
    else if opcode == 30 then Ok(Ping, at)
    else if opcode == 163 then Ok(ClearTarget, at)
    else if opcode == 130 then DecodeAmbient(s, at)
    else if opcode == 131 then DecodeGraphicalEffect(s, at)
    else if opcode == 132 then DecodeTextualEffect(s, at)
    else if opcode == 133 then DecodeMissileEffect(s, at)
    else if opcode == 134 then DecodeMarkCreature(s, at)
    else if 140 <= opcode <= 145 then DecodeCreatureAttribute(s, at, opcode)
    else if opcode == 160 then DecodePlayerData(s, at)
    else if opcode == 161 then DecodePlayerSkills(s, at)
    else if opcode == 162 then DecodePlayerState(s, at)
    else if opcode == 120 || opcode == 121 then DecodeInventory(s, at, opcode == 121, types)
    else if 110 <= opcode <= 114 then DecodeContainer(s, at, opcode, types)
    else if 125 <= opcode <= 127 then DecodeTrade(s, at, opcode, types)
    else if 171 <= opcode <= 173 || opcode == 178 || opcode == 179 then DecodeChannel(s, at, opcode)
    else if opcode == 150 then DecodeEditText(s, at)
    else if opcode == 151 then DecodeEditList(s, at)
    else if opcode == 200 then DecodeOutfitDialog(s, at)
    else DecodeBuddy(s, at, opcode)
  }

  function Staying(body: Parse<ServerUpdate>, anchor: MapPosition): Parse<Stepped> {
    match body
    case Ok(update, at) => Ok(Stepped(update, anchor), at)
    case Fail(error) => Fail(error)
  }

  /** One command. An opcode of unknown length consumes nothing: guessing would desynchronise
      the stream. */
  function Decode(s: seq<byte>, at: nat, anchor: MapPosition, types: Types): Parse<Stepped> {
    if EmptyTable(types) then Fail(EmptyObjectTypeTable)
    else if at >= |s| then Fail(Truncated)
    else if !Supported(s[at]) then Ok(Stepped(Unsupported, anchor), at)
    else if Moves(s[at]) then DecodeMoving(s, at + 1, anchor, s[at], types)
    else Staying(DecodeStill(s, at + 1, s[at], types), anchor)
  }
}
