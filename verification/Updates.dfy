/** Decoded server commands, as clientcore/include/fusion32/protocol772/movement.h and
    player_state.h declare them. */
module Updates {
  import opened World
  import opened Viewport

  datatype Attribute =
    | Health(health: byte)
    | Light(brightness: byte, colour: byte)
    | Look(outfit: Outfit)
    | Speed(speed: word)
    | Skull(skull: byte)
    | Party(party: byte)

  datatype ContainerChange =
    | Opened(typeId: word, name: seq<byte>, capacity: byte, hasParent: bool, items: seq<ItemThing>)
    | Closed
    | Created(item: ItemThing)
    | Changed(slot: byte, item: ItemThing)
    | Deleted(slot: byte)

  datatype Stats = Stats(
    hitpoints: word, maxHitpoints: word, capacity: word, experience: quad, level: word, levelPercent: byte,
    mana: word, maxMana: word, magicLevel: byte, magicLevelPercent: byte, soulPoints: byte)

  datatype Skill = Skill(level: byte, percent: byte)

  datatype Skills = Skills(
    fist: Skill, club: Skill, sword: Skill, axe: Skill, distance: Skill, shielding: Skill, fishing: Skill)

  datatype TradeChange =
    | Offered(own: bool, name: seq<byte>, items: seq<ItemThing>)
    | TradeClosed

  datatype ChannelEntry = ChannelEntry(id: word, name: seq<byte>)

  datatype ChannelChange =
    | ChannelList(entries: seq<ChannelEntry>)
    | ChannelOpened(own: bool, channel: word, name: seq<byte>)
    | PrivateOpened(name: seq<byte>)
    | ChannelClosed(channel: word)

  datatype EditorChange =
    | TextEditor(objectId: quad, typeId: word, maxLength: word, text: seq<byte>, editor: seq<byte>)
    | ListEditor(kind: byte, id: quad, text: seq<byte>)

  /** The tail a talk mode selects. */
  datatype TalkTail =
    | At(position: MapPosition)
    | InChannel(channel: word)
    | Request(data: quad)
    | Plain

  /** The last two before `Unsupported` open a session; the consumer reads them itself, and the
      decoder never yields them. */
  datatype ServerUpdate =
    | FullScreen(window: Window, floors: seq<MapFloor>, describedTiles: nat, skippedTiles: nat)
    | Row(direction: Direction, floors: seq<MapFloor>)
    | FloorChange(up: bool, floors: seq<MapFloor>)
    | FieldData(tile: MapTile)
    | AddField(position: MapPosition, thing: MapThing)
    | ChangeField(position: MapPosition, stack: byte, thing: MapThing)
    | DeleteField(position: MapPosition, stack: byte)
    | MoveCreature(origin: MapPosition, stack: byte, destination: MapPosition)
    | Snapback(facing: byte)
    | Message(mode: byte, text: seq<byte>)
    | Talk(statement: quad, speaker: seq<byte>, mode: byte, tail: TalkTail, text: seq<byte>)
    | Ping
    | ClearTarget
    | Ambient(brightness: byte, colour: byte)
    | GraphicalEffect(position: MapPosition, effect: byte)
    | TextualEffect(position: MapPosition, colour: byte, text: seq<byte>)
    | MissileEffect(origin: MapPosition, destination: MapPosition, effect: byte)
    | MarkCreature(creature: quad, colour: byte)
    | CreatureAttribute(creature: quad, attribute: Attribute)
    | PlayerData(stats: Stats)
    | PlayerSkills(skills: Skills)
    | PlayerState(flags: byte)
    | Inventory(slot: byte, worn: Option<ItemThing>)
    | Container(number: byte, change: ContainerChange)
    | Trade(trade: TradeChange)
    | Channel(chat: ChannelChange)
    | Editor(editing: EditorChange)
    | Buddy(character: quad, name: Option<seq<byte>>, online: bool)
    | OutfitDialog(current: Outfit, first: word, last: word)
    | InitGame(creature: quad)
    | Rights(actions: seq<byte>)
    | Unsupported

  /** The commands that describe or edit fields; all others leave the map alone. */
  predicate TouchesMap(update: ServerUpdate) {
    update.FullScreen? || update.Row? || update.FloorChange? || update.FieldData?
    || update.AddField? || update.ChangeField? || update.DeleteField? || update.MoveCreature?
  }
}
