/** The server's half of the command stream: every command that leaves the viewport alone, as
    reference/game/src/sending.cc writes it, and the proof that the client's decoder returns it
    unchanged and stops exactly where it ends. */
module CommandCodec {
  import opened World
  import opened Chunks
  import opened Viewport
  import opened ObjectTypes
  import opened Updates
  import opened MapScan
  import opened MapCodec
  import opened Commands

  // ---- what the server writes for commands that leave the viewport alone ------------------------

  predicate GoodPosition(p: MapPosition) {
    0 <= p.x < 0x1_0000 && 0 <= p.y < 0x1_0000 && 0 <= p.z <= MAX_FLOOR
  }

  predicate GoodTail(tail: TalkTail, mode: byte) {
    match tail
    case At(p) => LayoutForMode(mode) == Positional && 0 <= p.x < 0x1_0000 && 0 <= p.y < 0x1_0000 && 0 <= p.z < 0x100
    case InChannel(_) => LayoutForMode(mode) == ChannelTail
    case Request(_) => mode == GAMEMASTER_REQUEST
    case Plain => LayoutForMode(mode) == PlainTail && mode != GAMEMASTER_REQUEST
  }

  predicate GoodText(text: seq<byte>) {
    |text| < 0x1_0000
  }

  predicate GoodChange(change: ContainerChange, types: Types) {
    match change
    case Opened(_, name, _, _, items) =>
      GoodText(name) && |items| <= MAX_OBJECTS_PER_CONTAINER && forall i :: 0 <= i < |items| ==>
        GoodItem(items[i], types)
    case Closed => true
    case Created(item) => GoodItem(item, types)
    case Changed(slot, item) => slot < MAX_OBJECTS_PER_CONTAINER && GoodItem(item, types)
    case Deleted(slot) => slot < MAX_OBJECTS_PER_CONTAINER
  }

  /** The updates a server can send as they are. Map snapshots, rows and floor changes are sent
      from the world instead, and a field as its objects. */
  predicate GoodUpdate(update: ServerUpdate, types: Types) {
    match update
    case FieldData(tile) =>
      GoodPosition(tile.position) && |tile.things| <= MAX_OBJECTS_PER_POINT
      && forall i :: 0 <= i < |tile.things| ==> Sendable(tile.things[i], types)
    case AddField(p, thing) => GoodPosition(p) && Sendable(thing, types)
    case ChangeField(p, stack, thing) => GoodPosition(p) && stack < MAX_OBJECTS_PER_POINT && Sendable(thing, types)
    case DeleteField(p, stack) => GoodPosition(p) && stack < MAX_OBJECTS_PER_POINT
    case MoveCreature(origin, stack, destination) =>
      GoodPosition(origin) && stack < MAX_OBJECTS_PER_POINT && GoodPosition(destination)
    case Message(_, text) => GoodText(text)
    case Talk(_, speaker, mode, tail, text) => GoodText(speaker) && GoodTail(tail, mode) && GoodText(text)
    case GraphicalEffect(p, _) => GoodPosition(p)
    case TextualEffect(p, _, text) => GoodPosition(p) && GoodText(text)
    case MissileEffect(origin, destination, _) => GoodPosition(origin) && GoodPosition(destination)
    case CreatureAttribute(_, Look(outfit)) => GoodOutfit(outfit)
    case CreatureAttribute(_, _) => true
    case Inventory(slot, worn) => FIRST_SLOT <= slot <= LAST_SLOT && (worn.Some? ==> GoodItem(worn.value, types))
    case Container(number, change) => number < MAX_OPEN_CONTAINERS && GoodChange(change, types)
    case Buddy(_, name, online) => name.Some? ==> GoodText(name.value)
    case OutfitDialog(current, _, _) => GoodOutfit(current)
    case Snapback(_) => true
    case Ping => true
    case ClearTarget => true
    case Ambient(_, _) => true
    case MarkCreature(_, _) => true
    case PlayerState(_) => true
    case PlayerData(_) => true
    case PlayerSkills(_) => true
    case Trade(trade) => GoodTrade(trade, types)
    case Channel(change) => GoodChannel(change)
    case Editor(editing) => GoodEditor(editing)
    case FullScreen(_, _, _, _) => false
    case Row(_, _) => false
    case FloorChange(_, _) => false
    case InitGame(_) => false
    case Rights(_) => false
    case Unsupported => false
  }

  function SendPosition(p: MapPosition): (bytes: seq<byte>)
    requires GoodPosition(p)
    ensures |bytes| == 5
  {
    Word(p.x) + (Word(p.y) + [p.z as byte])
  }

  lemma ReadSentPosition(s: seq<byte>, at: nat, p: MapPosition)
    requires GoodPosition(p) && Holds(s, at, SendPosition(p))
    ensures ReadPosition(s, at) == Ok(p, at + 5)
  {
    hide Word, U16, U8, Holds;
    HoldsBoth(s, at, Word(p.x), Word(p.y) + [p.z as byte]);
    ReadWord(s, at, p.x);
    HoldsBoth(s, at + 2, Word(p.y), [p.z as byte]);
    ReadWord(s, at + 2, p.y);
    ReadByte(s, at + 4, p.z);
  }

  function SendTail(tail: TalkTail, mode: byte): seq<byte>
    requires GoodTail(tail, mode)
  {
    match tail
    case At(p) => Word(p.x) + (Word(p.y) + [p.z as byte])
    case InChannel(channel) => Word(channel)
    case Request(data) => Quad(data)
    case Plain => []
  }

  lemma ReadSentTail(s: seq<byte>, at: nat, tail: TalkTail, mode: byte)
    requires GoodTail(tail, mode) && Holds(s, at, SendTail(tail, mode))
    ensures ReadTalkTail(s, at, mode) == Ok(tail, at + |SendTail(tail, mode)|)
  {
    hide Word, Quad, U16, U8, U32, Holds;
    match tail
    case At(p) =>
      HoldsBoth(s, at, Word(p.x), Word(p.y) + [p.z as byte]);
      ReadWord(s, at, p.x);
      HoldsBoth(s, at + 2, Word(p.y), [p.z as byte]);
      ReadWord(s, at + 2, p.y);
      ReadByte(s, at + 4, p.z);
    case InChannel(channel) => ReadWord(s, at, channel);
    case Request(data) => ReadQuad(s, at, data);
    case Plain =>
  }

  function SendAttribute(attribute: Attribute): seq<byte> {
    match attribute
    case Health(health) => [health]
    case Light(brightness, colour) => [brightness] + [colour]
    case Look(outfit) => SendOutfit(outfit)
    case Speed(speed) => Word(speed)
    case Skull(skull) => [skull]
    case Party(party) => [party]
  }

  function AttributeOpcode(attribute: Attribute): byte {
    match attribute
    case Health(_) => 140
    case Light(_, _) => 141
    case Look(_) => 142
    case Speed(_) => 143
    case Skull(_) => 144
    case Party(_) => 145
  }

  lemma ReadSentAttribute(s: seq<byte>, at: nat, attribute: Attribute)
    requires attribute.Look? ==> GoodOutfit(attribute.outfit)
    requires Holds(s, at, SendAttribute(attribute))
    ensures ReadAttribute(s, at, AttributeOpcode(attribute)) == Ok(attribute, at + |SendAttribute(attribute)|)
  {
    hide Word, SendOutfit, ReadOutfit, U16, U8, Holds;
    match attribute
    case Health(health) => ReadByte(s, at, health);
    case Light(brightness, colour) =>
      HoldsBoth(s, at, [brightness], [colour]);
      ReadByte(s, at, brightness);
      ReadByte(s, at + 1, colour);
    case Look(outfit) => ReadSentOutfit(s, at, outfit);
    case Speed(speed) => ReadWord(s, at, speed);
    case Skull(skull) => ReadByte(s, at, skull);
    case Party(party) => ReadByte(s, at, party);
  }

  function SendItems(items: seq<ItemThing>): seq<byte> {
    if items == [] then [] else SendItem(items[0]) + SendItems(items[1..])
  }

  lemma {:induction false} ReadSentItems(
      s: seq<byte>, at: nat, before: seq<ItemThing>, items: seq<ItemThing>, types: Types)
    requires forall i :: 0 <= i < |items| ==> GoodItem(items[i], types)
    requires Holds(s, at, SendItems(items))
    ensures ReadItems(s, at, |items|, types, before) == Ok(before + items, at + |SendItems(items)|)
    decreases |items|
  {
    hide GoodItem, SendItem, ReadItem, Holds;
    if items == [] {
      assert before + items == before;
    } else {
      HoldsBoth(s, at, SendItem(items[0]), SendItems(items[1..]));
      ReadSentItem(s, at, items[0], types);
      ReadSentItems(s, at + |SendItem(items[0])|, before + [items[0]], items[1..], types);
      assert before + [items[0]] + items[1..] == before + items;
    }
  }

  function SendOpened(typeId: word, name: seq<byte>, capacity: byte, hasParent: bool, items: seq<ItemThing>): seq<byte>
    requires GoodText(name) && |items| <= MAX_OBJECTS_PER_CONTAINER
  {
    Word(typeId) + (SendString(name) + ([capacity] + ([Flag(hasParent)] + ([|items| as byte] + SendItems(items)))))
  }

  lemma ReadSentOpened(s: seq<byte>, at: nat, change: ContainerChange, types: Types)
    requires change.Opened? && GoodChange(change, types)
    requires Holds(s, at, SendOpened(change.typeId, change.name, change.capacity, change.hasParent, change.items))
    ensures ReadOpened(s, at, types)
      == Ok(change, at + |SendOpened(change.typeId, change.name, change.capacity, change.hasParent, change.items)|)
  {
    hide Word, SendString, SendItems, U8, U16, Text, ReadItems, Holds, GoodItem;
    var t4 := [|change.items| as byte] + SendItems(change.items);
    var t3 := [Flag(change.hasParent)] + t4;
    var t2 := [change.capacity] + t3;
    var t1 := SendString(change.name) + t2;
    HoldsBoth(s, at, Word(change.typeId), t1);
    ReadWord(s, at, change.typeId);
    HoldsBoth(s, at + 2, SendString(change.name), t2);
    ReadText(s, at + 2, change.name);
    var at2 := at + 2 + |SendString(change.name)|;
    HoldsBoth(s, at2, [change.capacity], t3);
    ReadByte(s, at2, change.capacity);
    HoldsBoth(s, at2 + 1, [Flag(change.hasParent)], t4);
    ReadByte(s, at2 + 1, Flag(change.hasParent));
    HoldsBoth(s, at2 + 2, [|change.items| as byte], SendItems(change.items));
    ReadByte(s, at2 + 2, |change.items|);
    ReadSentItems(s, at2 + 3, [], change.items, types);
    assert [] + change.items == change.items;
  }

  function SendChange(change: ContainerChange, types: Types): seq<byte>
    requires GoodChange(change, types)
  {
    match change
    case Opened(typeId, name, capacity, hasParent, items) => SendOpened(typeId, name, capacity, hasParent, items)
    case Closed => []
    case Created(item) => SendItem(item)
    case Changed(slot, item) => [slot] + SendItem(item)
    case Deleted(slot) => [slot]
  }

  function ChangeOpcode(change: ContainerChange): byte {
    match change
    case Opened(_, _, _, _, _) => 110
    case Closed => 111
    case Created(_) => 112
    case Changed(_, _) => 113
    case Deleted(_) => 114
  }

  lemma ReadSentChange(s: seq<byte>, at: nat, change: ContainerChange, types: Types)
    requires GoodChange(change, types) && Holds(s, at, SendChange(change, types))
    ensures ReadChange(s, at, ChangeOpcode(change), types) == Ok(change, at + |SendChange(change, types)|)
  {
    hide SendItem, SendOpened, ReadItem, ReadOpened, U8, Holds, GoodItem;
    match change
    case Opened(_, _, _, _, _) => ReadSentOpened(s, at, change, types);
    case Closed =>
    case Created(item) => ReadSentItem(s, at, item, types);
    case Changed(slot, item) =>
      HoldsBoth(s, at, [slot], SendItem(item));
      ReadByte(s, at, slot);
      ReadSentItem(s, at + 1, item, types);
    case Deleted(slot) => ReadByte(s, at, slot);
  }

  function SendStats(stats: Stats): seq<byte> {
    Word(stats.hitpoints) + (Word(stats.maxHitpoints)
      + (Word(stats.capacity) + (Quad(stats.experience)
      + (Word(stats.level) + ([stats.levelPercent]
      + (Word(stats.mana) + (Word(stats.maxMana)
      + ([stats.magicLevel] + ([stats.magicLevelPercent] + [stats.soulPoints])))))))))
  }

  lemma ReadSentStats(s: seq<byte>, at: nat, stats: Stats)
    requires Holds(s, at, SendStats(stats))
    ensures ReadStats(s, at) == Ok(stats, at + |SendStats(stats)|)
  {
    hide Word, Quad, U8, U16, U32, Holds;
    var t9 := [stats.magicLevelPercent] + [stats.soulPoints];
    var t8 := [stats.magicLevel] + t9;
    var t7 := Word(stats.maxMana) + t8;
    var t6 := Word(stats.mana) + t7;
    var t5 := [stats.levelPercent] + t6;
    var t4 := Word(stats.level) + t5;
    var t3 := Quad(stats.experience) + t4;
    var t2 := Word(stats.capacity) + t3;
    var t1 := Word(stats.maxHitpoints) + t2;
    HoldsBoth(s, at, Word(stats.hitpoints), t1);
    ReadWord(s, at, stats.hitpoints);
    HoldsBoth(s, at + 2, Word(stats.maxHitpoints), t2);
    ReadWord(s, at + 2, stats.maxHitpoints);
    HoldsBoth(s, at + 4, Word(stats.capacity), t3);
    ReadWord(s, at + 4, stats.capacity);
    HoldsBoth(s, at + 6, Quad(stats.experience), t4);
    ReadQuad(s, at + 6, stats.experience);
    HoldsBoth(s, at + 10, Word(stats.level), t5);
    ReadWord(s, at + 10, stats.level);
    HoldsBoth(s, at + 12, [stats.levelPercent], t6);
    ReadByte(s, at + 12, stats.levelPercent);
    HoldsBoth(s, at + 13, Word(stats.mana), t7);
    ReadWord(s, at + 13, stats.mana);
    HoldsBoth(s, at + 15, Word(stats.maxMana), t8);
    ReadWord(s, at + 15, stats.maxMana);
    HoldsBoth(s, at + 17, [stats.magicLevel], t9);
    ReadByte(s, at + 17, stats.magicLevel);
    HoldsBoth(s, at + 18, [stats.magicLevelPercent], [stats.soulPoints]);
    ReadByte(s, at + 18, stats.magicLevelPercent);
    ReadByte(s, at + 19, stats.soulPoints);
  }

  function SendSkill(skill: Skill): (bytes: seq<byte>)
    ensures |bytes| == 2
  {
    [skill.level] + [skill.percent]
  }

  lemma ReadSentSkill(s: seq<byte>, at: nat, skill: Skill)
    requires Holds(s, at, SendSkill(skill))
    ensures ReadSkill(s, at) == Ok(skill, at + 2)
  {
    hide U8, Holds;
    HoldsBoth(s, at, [skill.level], [skill.percent]);
    ReadByte(s, at, skill.level);
    ReadByte(s, at + 1, skill.percent);
  }

  function SendSkills(skills: Skills): seq<byte> {
    SendSkill(skills.fist) + (SendSkill(skills.club)
      + (SendSkill(skills.sword) + (SendSkill(skills.axe)
      + (SendSkill(skills.distance) + (SendSkill(skills.shielding) + SendSkill(skills.fishing))))))
  }

  lemma ReadSentSkills(s: seq<byte>, at: nat, skills: Skills)
    requires Holds(s, at, SendSkills(skills))
    ensures DecodePlayerSkills(s, at) == Ok(PlayerSkills(skills), at + |SendSkills(skills)|)
  {
    hide SendSkill, ReadSkill, Holds;
    var t5 := SendSkill(skills.shielding) + SendSkill(skills.fishing);
    var t4 := SendSkill(skills.distance) + t5;
    var t3 := SendSkill(skills.axe) + t4;
    var t2 := SendSkill(skills.sword) + t3;
    var t1 := SendSkill(skills.club) + t2;
    HoldsBoth(s, at, SendSkill(skills.fist), t1);
    ReadSentSkill(s, at, skills.fist);
    HoldsBoth(s, at + 2, SendSkill(skills.club), t2);
    ReadSentSkill(s, at + 2, skills.club);
    HoldsBoth(s, at + 4, SendSkill(skills.sword), t3);
    ReadSentSkill(s, at + 4, skills.sword);
    HoldsBoth(s, at + 6, SendSkill(skills.axe), t4);
    ReadSentSkill(s, at + 6, skills.axe);
    HoldsBoth(s, at + 8, SendSkill(skills.distance), t5);
    ReadSentSkill(s, at + 8, skills.distance);
    HoldsBoth(s, at + 10, SendSkill(skills.shielding), SendSkill(skills.fishing));
    ReadSentSkill(s, at + 10, skills.shielding);
    ReadSentSkill(s, at + 12, skills.fishing);
  }

  predicate GoodTrade(change: TradeChange, types: Types) {
    change.Offered? ==>
      GoodText(change.name) && |change.items| < 0x100
      && forall i :: 0 <= i < |change.items| ==> GoodItem(change.items[i], types)
  }

  function SendTrade(change: TradeChange, types: Types): seq<byte>
    requires GoodTrade(change, types)
  {
    match change
    case Offered(_, name, items) => SendString(name) + ([|items| as byte] + SendItems(items))
    case TradeClosed => []
  }

  function TradeOpcode(change: TradeChange): byte {
    if change.TradeClosed? then 127 else if change.own then 125 else 126
  }

  lemma ReadSentTrade(s: seq<byte>, at: nat, change: TradeChange, types: Types)
    requires GoodTrade(change, types) && Holds(s, at, SendTrade(change, types))
    ensures DecodeTrade(s, at, TradeOpcode(change), types) == Ok(Trade(change), at + |SendTrade(change, types)|)
  {
    hide SendString, SendItems, U8, Text, ReadItems, Holds, GoodItem;
    if change.Offered? {
      HoldsBoth(s, at, SendString(change.name), [|change.items| as byte] + SendItems(change.items));
      ReadText(s, at, change.name);
      var at1 := at + |SendString(change.name)|;
      HoldsBoth(s, at1, [|change.items| as byte], SendItems(change.items));
      ReadByte(s, at1, |change.items|);
      ReadSentItems(s, at1 + 1, [], change.items, types);
      assert [] + change.items == change.items;
    }
  }

  /** An object on offer and, if it is a container, what is in it. */
  datatype Possession = Possession(item: ItemThing, container: bool, contents: seq<Possession>)

  /** The count the server announces, and the objects it then sends: two walks over one tree. */
  function CountObjects(o: Possession): nat {
    1 + if o.container then CountAll(o.contents) else 0
  }

  function CountAll(os: seq<Possession>): nat {
    if os == [] then 0 else CountObjects(os[0]) + CountAll(os[1..])
  }

  function SendTradeObjects(o: Possession): seq<byte> {
    SendItem(o.item) + if o.container then SendAllObjects(o.contents) else []
  }

  function SendAllObjects(os: seq<Possession>): seq<byte> {
    if os == [] then [] else SendTradeObjects(os[0]) + SendAllObjects(os[1..])
  }

  /** What a trade partner sees of it: every object once, containers before what is in them. */
  function Flattened(o: Possession): seq<ItemThing> {
    [o.item] + if o.container then FlattenedAll(o.contents) else []
  }

  function FlattenedAll(os: seq<Possession>): seq<ItemThing> {
    if os == [] then [] else Flattened(os[0]) + FlattenedAll(os[1..])
  }

  lemma {:induction false} SendItemsJoin(a: seq<ItemThing>, b: seq<ItemThing>)
    ensures SendItems(a + b) == SendItems(a) + SendItems(b)
  {
    hide SendItem;
    if a == [] {
      assert a + b == b;
    } else {
      SendItemsJoin(a[1..], b);
      assert (a + b)[0] == a[0] && (a + b)[1..] == a[1..] + b;
      Regrouped(SendItem(a[0]), SendItems(a[1..]), SendItems(b));
    }
  }

  lemma Regrouped<T>(a: seq<T>, b: seq<T>, c: seq<T>)
    ensures a + (b + c) == (a + b) + c
  {
  }

  lemma {:induction false} ObjectsAreFlattened(o: Possession)
    ensures SendTradeObjects(o) == SendItems(Flattened(o)) && CountObjects(o) == |Flattened(o)|
    decreases o
  {
    hide SendItem;
    assert SendItems([o.item]) == SendItem(o.item) + SendItems([]);
    if o.container {
      AllAreFlattened(o.contents);
      SendItemsJoin([o.item], FlattenedAll(o.contents));
    }
  }

  lemma {:induction false} AllAreFlattened(os: seq<Possession>)
    ensures SendAllObjects(os) == SendItems(FlattenedAll(os)) && CountAll(os) == |FlattenedAll(os)|
    decreases os
  {
    hide SendItem;
    if os != [] {
      ObjectsAreFlattened(os[0]);
      AllAreFlattened(os[1..]);
      SendItemsJoin(Flattened(os[0]), FlattenedAll(os[1..]));
    }
  }

  /** An offer of a container with whatever is nested in it reads back as all its objects: the
      count and the objects come from separate recursions and agree. */
  lemma ReadSentPossession(s: seq<byte>, at: nat, own: bool, name: seq<byte>, o: Possession, types: Types)
    requires GoodText(name) && CountObjects(o) < 0x100
    requires forall i :: 0 <= i < |Flattened(o)| ==> GoodItem(Flattened(o)[i], types)
    requires Holds(s, at, SendString(name) + ([CountObjects(o) as byte] + SendTradeObjects(o)))
    ensures DecodeTrade(s, at, if own then 125 else 126, types)
      == Ok(Trade(Offered(own, name, Flattened(o))), at + |SendString(name)| + 1 + |SendTradeObjects(o)|)
  {
    hide SendString, SendItems, SendTradeObjects, CountObjects, Flattened, DecodeTrade, Holds, GoodItem;
    ObjectsAreFlattened(o);
    ReadSentTrade(s, at, Offered(own, name, Flattened(o)), types);
  }

  predicate GoodEntries(entries: seq<ChannelEntry>) {
    forall i :: 0 <= i < |entries| ==> GoodText(entries[i].name)
  }

  function SendEntry(entry: ChannelEntry): seq<byte>
    requires GoodText(entry.name)
  {
    Word(entry.id) + SendString(entry.name)
  }

  lemma ReadSentEntry(s: seq<byte>, at: nat, entry: ChannelEntry)
    requires GoodText(entry.name) && Holds(s, at, SendEntry(entry))
    ensures ReadChannelEntry(s, at) == Ok(entry, at + |SendEntry(entry)|)
  {
    hide Word, SendString, U16, Text, Holds;
    HoldsBoth(s, at, Word(entry.id), SendString(entry.name));
    ReadWord(s, at, entry.id);
    ReadText(s, at + 2, entry.name);
  }

  function SendEntries(entries: seq<ChannelEntry>): seq<byte>
    requires GoodEntries(entries)
  {
    if entries == [] then [] else SendEntry(entries[0]) + SendEntries(entries[1..])
  }

  lemma {:induction false} ReadSentEntries(
      s: seq<byte>, at: nat, before: seq<ChannelEntry>, entries: seq<ChannelEntry>)
    requires GoodEntries(entries) && Holds(s, at, SendEntries(entries))
    ensures ReadEntries(s, at, |entries|, before) == Ok(before + entries, at + |SendEntries(entries)|)
    decreases |entries|
  {
    hide SendEntry, ReadChannelEntry, Holds;
    if entries == [] {
      assert before + entries == before;
    } else {
      HoldsBoth(s, at, SendEntry(entries[0]), SendEntries(entries[1..]));
      ReadSentEntry(s, at, entries[0]);
      ReadSentEntries(s, at + |SendEntry(entries[0])|, before + [entries[0]], entries[1..]);
      assert before + [entries[0]] + entries[1..] == before + entries;
    }
  }

  predicate GoodChannel(change: ChannelChange) {
    match change
    case ChannelList(entries) => |entries| < 0x100 && GoodEntries(entries)
    case ChannelOpened(_, _, name) => GoodText(name)
    case PrivateOpened(name) => GoodText(name)
    case ChannelClosed(_) => true
  }

  function SendChannel(change: ChannelChange): seq<byte>
    requires GoodChannel(change)
  {
    match change
    case ChannelList(entries) => [|entries| as byte] + SendEntries(entries)
    case ChannelOpened(_, channel, name) => SendEntry(ChannelEntry(channel, name))
    case PrivateOpened(name) => SendString(name)
    case ChannelClosed(channel) => Word(channel)
  }

  function ChannelOpcode(change: ChannelChange): byte {
    match change
    case ChannelList(_) => 171
    case ChannelOpened(own, _, _) => if own then 178 else 172
    case PrivateOpened(_) => 173
    case ChannelClosed(_) => 179
  }

  lemma ReadSentChannel(s: seq<byte>, at: nat, change: ChannelChange)
    requires GoodChannel(change) && Holds(s, at, SendChannel(change))
    ensures DecodeChannel(s, at, ChannelOpcode(change)) == Ok(Channel(change), at + |SendChannel(change)|)
  {
    hide Word, SendString, SendEntry, SendEntries, U8, U16, Text, ReadChannelEntry, ReadEntries, GoodEntries, Holds;
    match change
    case ChannelList(entries) =>
      HoldsBoth(s, at, [|entries| as byte], SendEntries(entries));
      ReadByte(s, at, |entries|);
      ReadSentEntries(s, at + 1, [], entries);
      assert [] + entries == entries;
    case ChannelOpened(_, channel, name) => ReadSentEntry(s, at, ChannelEntry(channel, name));
    case PrivateOpened(name) => ReadText(s, at, name);
    case ChannelClosed(channel) => ReadWord(s, at, channel);
  }

  predicate GoodEditor(change: EditorChange) {
    GoodText(change.text) && (change.TextEditor? ==> GoodText(change.editor))
  }

  function SendEditor(change: EditorChange): seq<byte>
    requires GoodEditor(change)
  {
    match change
    case TextEditor(objectId, typeId, maxLength, text, editor) =>
      Quad(objectId) + (Word(typeId) + (Word(maxLength) + (SendString(text) + SendString(editor))))
    case ListEditor(kind, id, text) => [kind] + (Quad(id) + SendString(text))
  }

  lemma ReadSentEditor(s: seq<byte>, at: nat, change: EditorChange)
    requires GoodEditor(change) && Holds(s, at, SendEditor(change))
    ensures (if change.TextEditor? then DecodeEditText(s, at) else DecodeEditList(s, at))
      == Ok(Editor(change), at + |SendEditor(change)|)
  {
    hide Word, Quad, SendString, U8, U16, U32, Text, Holds;
    match change
    case TextEditor(objectId, typeId, maxLength, text, editor) =>
      var t3 := SendString(text) + SendString(editor);
      var t2 := Word(maxLength) + t3;
      HoldsBoth(s, at, Quad(objectId), Word(typeId) + t2);
      ReadQuad(s, at, objectId);
      HoldsBoth(s, at + 4, Word(typeId), t2);
      ReadWord(s, at + 4, typeId);
      HoldsBoth(s, at + 6, Word(maxLength), t3);
      ReadWord(s, at + 6, maxLength);
      HoldsBoth(s, at + 8, SendString(text), SendString(editor));
      ReadText(s, at + 8, text);
      ReadText(s, at + 8 + |SendString(text)|, editor);
    case ListEditor(kind, id, text) =>
      HoldsBoth(s, at, [kind], Quad(id) + SendString(text));
      ReadByte(s, at, kind);
      HoldsBoth(s, at + 1, Quad(id), SendString(text));
      ReadQuad(s, at + 1, id);
      ReadText(s, at + 5, text);
  }

  function SendBody(update: ServerUpdate, types: Types): seq<byte>
    requires GoodUpdate(update, types)
  {
    match update
    case FieldData(tile) =>
      SendPosition(tile.position) + (SendThings(tile.things, types) + [0, 0xFF])
    case AddField(p, thing) => SendPosition(p) + SendMapObject(thing, types)
    case ChangeField(p, stack, thing) => SendPosition(p) + ([stack] + SendMapObject(thing, types))
    case DeleteField(p, stack) => SendPosition(p) + [stack]
    case MoveCreature(origin, stack, destination) => SendPosition(origin) + ([stack] + SendPosition(destination))
    case Snapback(facing) => [facing]
    case Message(mode, text) => [mode] + SendString(text)
    case Talk(statement, speaker, mode, tail, text)
      => Quad(statement) + (SendString(speaker) + ([mode] + (SendTail(tail, mode) + SendString(text))))
    case Ambient(brightness, colour) => [brightness] + [colour]
    case GraphicalEffect(p, effect) => SendPosition(p) + [effect]
    case TextualEffect(p, colour, text) => SendPosition(p) + ([colour] + SendString(text))
    case MissileEffect(origin, destination, effect) => SendPosition(origin) + (SendPosition(destination) + [effect])
    case MarkCreature(id, colour) => Quad(id) + [colour]
    case CreatureAttribute(id, attribute) => Quad(id) + SendAttribute(attribute)
    case PlayerState(flags) => [flags]
    case PlayerData(stats) => SendStats(stats)
    case PlayerSkills(skills) => SendSkills(skills)
    case Trade(trade) => SendTrade(trade, types)
    case Channel(change) => SendChannel(change)
    case Editor(editing) => SendEditor(editing)
    case Container(number, change) => [number] + SendChange(change, types)
    case OutfitDialog(current, first, last) => SendOutfit(current) + (Word(first) + Word(last))
    case Inventory(slot, worn) => [slot] + if worn.Some? then SendItem(worn.value) else []
    case Buddy(character, name, online) =>
      Quad(character) + if name.Some? then SendString(name.value) + [Flag(online)] else []
    case Ping => []
    case ClearTarget => []
  }

  function Opcode(update: ServerUpdate, types: Types): byte
    requires GoodUpdate(update, types)
  {
    match update
    case FieldData(_) => 105
    case AddField(_, _) => 106
    case ChangeField(_, _, _) => 107
    case DeleteField(_, _) => 108
    case MoveCreature(_, _, _) => 109
    case Snapback(_) => 181
    case Message(_, _) => 180
    case Talk(_, _, _, _, _) => 170
    case Ambient(_, _) => 130
    case GraphicalEffect(_, _) => 131
    case TextualEffect(_, _, _) => 132
    case MissileEffect(_, _, _) => 133
    case MarkCreature(_, _) => 134
    case CreatureAttribute(_, attribute) => AttributeOpcode(attribute)
    case PlayerState(_) => 162
    case PlayerData(_) => 160
    case PlayerSkills(_) => 161
    case Trade(trade) => TradeOpcode(trade)
    case Channel(change) => ChannelOpcode(change)
    case Editor(editing) => if editing.TextEditor? then 150 else 151
    case Container(_, change) => ChangeOpcode(change)
    case OutfitDialog(_, _, _) => 200
    case Inventory(_, worn) => if worn.Some? then 120 else 121
    case Buddy(_, name, online) => if name.Some? then 210 else if online then 211 else 212
    case Ping => 30
    case ClearTarget => 163
  }

  lemma ReadSentAddField(s: seq<byte>, at: nat, update: ServerUpdate, types: Types)
    requires update.AddField? && GoodUpdate(update, types) && Holds(s, at, SendBody(update, types))
    ensures DecodeAddField(s, at, types) == Ok(update, at + |SendBody(update, types)|)
  {
    hide Holds, ReadPosition, ReadThing, SendMapObject, SendPosition, Sendable;
    var AddField(p, thing) := update;
    HoldsBoth(s, at, SendPosition(p), SendMapObject(thing, types));
    ReadSentPosition(s, at, p);
    ReadSentThing(s, at + 5, thing, types);
  }

  lemma ReadSentChangeField(s: seq<byte>, at: nat, update: ServerUpdate, types: Types)
    requires update.ChangeField? && GoodUpdate(update, types) && Holds(s, at, SendBody(update, types))
    ensures DecodeChangeField(s, at, types) == Ok(update, at + |SendBody(update, types)|)
  {
    hide Holds, ReadPosition, ReadThing, SendMapObject, SendPosition, Sendable, U8;
    var ChangeField(p, stack, thing) := update;
    HoldsBoth(s, at, SendPosition(p), [stack] + SendMapObject(thing, types));
    ReadSentPosition(s, at, p);
    HoldsBoth(s, at + 5, [stack], SendMapObject(thing, types));
    ReadByte(s, at + 5, stack);
    ReadSentThing(s, at + 5 + 1, thing, types);
  }

  lemma ReadSentDeleteField(s: seq<byte>, at: nat, update: ServerUpdate, types: Types)
    requires update.DeleteField? && GoodUpdate(update, types) && Holds(s, at, SendBody(update, types))
    ensures DecodeDeleteField(s, at) == Ok(update, at + |SendBody(update, types)|)
  {
    hide Holds, ReadPosition, SendPosition, U8;
    var DeleteField(p, stack) := update;
    HoldsBoth(s, at, SendPosition(p), [stack]);
    ReadSentPosition(s, at, p);
    ReadByte(s, at + 5, stack);
  }

  lemma ReadSentMoveCreature(s: seq<byte>, at: nat, update: ServerUpdate, types: Types)
    requires update.MoveCreature? && GoodUpdate(update, types) && Holds(s, at, SendBody(update, types))
    ensures DecodeMoveCreature(s, at) == Ok(update, at + |SendBody(update, types)|)
  {
    hide Holds, ReadPosition, SendPosition, U8;
    var MoveCreature(origin, stack, destination) := update;
    HoldsBoth(s, at, SendPosition(origin), [stack] + SendPosition(destination));
    ReadSentPosition(s, at, origin);
    HoldsBoth(s, at + 5, [stack], SendPosition(destination));
    ReadByte(s, at + 5, stack);
    ReadSentPosition(s, at + 5 + 1, destination);
  }

  lemma ReadSentSnapback(s: seq<byte>, at: nat, update: ServerUpdate, types: Types)
    requires update.Snapback? && GoodUpdate(update, types) && Holds(s, at, SendBody(update, types))
    ensures DecodeSnapback(s, at) == Ok(update, at + |SendBody(update, types)|)
  {
    hide Holds, U8;
    var Snapback(facing) := update;
    ReadByte(s, at, facing);
  }

  lemma ReadSentMessage(s: seq<byte>, at: nat, update: ServerUpdate, types: Types)
    requires update.Message? && GoodUpdate(update, types) && Holds(s, at, SendBody(update, types))
    ensures DecodeMessage(s, at) == Ok(update, at + |SendBody(update, types)|)
  {
    hide Holds, SendString, Text, U8;
    var Message(mode, text) := update;
    HoldsBoth(s, at, [mode], SendString(text));
    ReadByte(s, at, mode);
    ReadText(s, at + 1, text);
  }

  lemma TalkParts(s: seq<byte>, at: nat, update: ServerUpdate, types: Types)
    requires update.Talk? && GoodUpdate(update, types) && Holds(s, at, SendBody(update, types))
    ensures var at2 := at + 4 + |SendString(update.speaker)|;
      var at3 := at2 + 1 + |SendTail(update.tail, update.mode)|;
      && Holds(s, at, Quad(update.statement)) && Holds(s, at + 4, SendString(update.speaker))
      && Holds(s, at2, [update.mode])
      && Holds(s, at2 + 1, SendTail(update.tail, update.mode)) && Holds(s, at3, SendString(update.text))
      && at + |SendBody(update, types)| == at3 + |SendString(update.text)|
  {
    hide GoodTail, Holds, Quad, SendString, SendTail;
    var t3 := SendTail(update.tail, update.mode) + SendString(update.text);
    var t2 := [update.mode] + t3;
    var t1 := SendString(update.speaker) + t2;
    HoldsBoth(s, at, Quad(update.statement), t1);
    HoldsBoth(s, at + 4, SendString(update.speaker), t2);
    HoldsBoth(s, at + 4 + |SendString(update.speaker)|, [update.mode], t3);
    HoldsBoth(s, at + 5 + |SendString(update.speaker)|, SendTail(update.tail, update.mode), SendString(update.text));
  }

  lemma ReadSentTalk(s: seq<byte>, at: nat, update: ServerUpdate, types: Types)
    requires update.Talk? && GoodUpdate(update, types) && Holds(s, at, SendBody(update, types))
    ensures DecodeTalk(s, at) == Ok(update, at + |SendBody(update, types)|)
  {
    hide SendBody, GoodTail, Holds, Quad, ReadTalkTail, SendString, SendTail, Text, U32, U8;
    TalkParts(s, at, update, types);
    ReadQuad(s, at, update.statement);
    ReadText(s, at + 4, update.speaker);
    var at2 := at + 4 + |SendString(update.speaker)|;
    ReadByte(s, at2, update.mode);
    ReadSentTail(s, at2 + 1, update.tail, update.mode);
    ReadText(s, at2 + 1 + |SendTail(update.tail, update.mode)|, update.text);
  }

  lemma ReadSentAmbient(s: seq<byte>, at: nat, update: ServerUpdate, types: Types)
    requires update.Ambient? && GoodUpdate(update, types) && Holds(s, at, SendBody(update, types))
    ensures DecodeAmbient(s, at) == Ok(update, at + |SendBody(update, types)|)
  {
    hide Holds, U8;
    var Ambient(brightness, colour) := update;
    HoldsBoth(s, at, [brightness], [colour]);
    ReadByte(s, at, brightness);
    ReadByte(s, at + 1, colour);
  }

  lemma ReadSentGraphicalEffect(s: seq<byte>, at: nat, update: ServerUpdate, types: Types)
    requires update.GraphicalEffect? && GoodUpdate(update, types) && Holds(s, at, SendBody(update, types))
    ensures DecodeGraphicalEffect(s, at) == Ok(update, at + |SendBody(update, types)|)
  {
    hide Holds, ReadPosition, SendPosition, U8;
    var GraphicalEffect(p, effect) := update;
    HoldsBoth(s, at, SendPosition(p), [effect]);
    ReadSentPosition(s, at, p);
    ReadByte(s, at + 5, effect);
  }

  lemma ReadSentTextualEffect(s: seq<byte>, at: nat, update: ServerUpdate, types: Types)
    requires update.TextualEffect? && GoodUpdate(update, types) && Holds(s, at, SendBody(update, types))
    ensures DecodeTextualEffect(s, at) == Ok(update, at + |SendBody(update, types)|)
  {
    hide Holds, ReadPosition, SendPosition, SendString, Text, U8;
    var TextualEffect(p, colour, text) := update;
    HoldsBoth(s, at, SendPosition(p), [colour] + SendString(text));
    ReadSentPosition(s, at, p);
    HoldsBoth(s, at + 5, [colour], SendString(text));
    ReadByte(s, at + 5, colour);
    ReadText(s, at + 5 + 1, text);
  }

  lemma ReadSentMissileEffect(s: seq<byte>, at: nat, update: ServerUpdate, types: Types)
    requires update.MissileEffect? && GoodUpdate(update, types) && Holds(s, at, SendBody(update, types))
    ensures DecodeMissileEffect(s, at) == Ok(update, at + |SendBody(update, types)|)
  {
    hide Holds, ReadPosition, SendPosition, U8;
    var MissileEffect(origin, destination, effect) := update;
    HoldsBoth(s, at, SendPosition(origin), SendPosition(destination) + [effect]);
    ReadSentPosition(s, at, origin);
    HoldsBoth(s, at + 5, SendPosition(destination), [effect]);
    ReadSentPosition(s, at + 5, destination);
    ReadByte(s, at + 5 + 5, effect);
  }

  lemma ReadSentMarkCreature(s: seq<byte>, at: nat, update: ServerUpdate, types: Types)
    requires update.MarkCreature? && GoodUpdate(update, types) && Holds(s, at, SendBody(update, types))
    ensures DecodeMarkCreature(s, at) == Ok(update, at + |SendBody(update, types)|)
  {
    hide Holds, Quad, U32, U8;
    var MarkCreature(id, colour) := update;
    HoldsBoth(s, at, Quad(id), [colour]);
    ReadQuad(s, at, id);
    ReadByte(s, at + 4, colour);
  }

  lemma ReadSentCreatureAttribute(s: seq<byte>, at: nat, update: ServerUpdate, types: Types)
    requires update.CreatureAttribute? && GoodUpdate(update, types) && Holds(s, at, SendBody(update, types))
    ensures DecodeCreatureAttribute(s, at, AttributeOpcode(update.attribute))
      == Ok(update, at + |SendBody(update, types)|)
  {
    hide Holds, Quad, ReadAttribute, SendAttribute, U32;
    var CreatureAttribute(id, attribute) := update;
    HoldsBoth(s, at, Quad(id), SendAttribute(attribute));
    ReadQuad(s, at, id);
    ReadSentAttribute(s, at + 4, attribute);
  }

  lemma ReadSentPlayerState(s: seq<byte>, at: nat, update: ServerUpdate, types: Types)
    requires update.PlayerState? && GoodUpdate(update, types) && Holds(s, at, SendBody(update, types))
    ensures DecodePlayerState(s, at) == Ok(update, at + |SendBody(update, types)|)
  {
    hide Holds, U8;
    var PlayerState(flags) := update;
    ReadByte(s, at, flags);
  }

  lemma ReadSentContainer(s: seq<byte>, at: nat, update: ServerUpdate, types: Types)
    requires update.Container? && GoodUpdate(update, types) && Holds(s, at, SendBody(update, types))
    ensures DecodeContainer(s, at, ChangeOpcode(update.change), types) == Ok(update, at + |SendBody(update, types)|)
  {
    hide Holds, ReadChange, SendChange, U8;
    var Container(number, change) := update;
    HoldsBoth(s, at, [number], SendChange(change, types));
    ReadByte(s, at, number);
    ReadSentChange(s, at + 1, change, types);
  }

  lemma ReadSentOutfitDialog(s: seq<byte>, at: nat, update: ServerUpdate, types: Types)
    requires update.OutfitDialog? && GoodUpdate(update, types) && Holds(s, at, SendBody(update, types))
    ensures DecodeOutfitDialog(s, at) == Ok(update, at + |SendBody(update, types)|)
  {
    hide Holds, ReadOutfit, SendOutfit, U16, Word;
    var OutfitDialog(current, first, last) := update;
    HoldsBoth(s, at, SendOutfit(current), Word(first) + Word(last));
    ReadSentOutfit(s, at, current);
    HoldsBoth(s, at + |SendOutfit(current)|, Word(first), Word(last));
    ReadWord(s, at + |SendOutfit(current)|, first);
    ReadWord(s, at + |SendOutfit(current)| + 2, last);
  }

  lemma ReadSentInventory(s: seq<byte>, at: nat, update: ServerUpdate, types: Types)
    requires update.Inventory? && GoodUpdate(update, types) && Holds(s, at, SendBody(update, types))
    ensures DecodeInventory(s, at, update.worn.None?, types) == Ok(update, at + |SendBody(update, types)|)
  {
    hide SendItem, ReadItem, U8, Holds, GoodItem;
    HoldsBoth(s, at, [update.slot], if update.worn.Some? then SendItem(update.worn.value) else []);
    ReadByte(s, at, update.slot);
    if update.worn.Some? { ReadSentItem(s, at + 1, update.worn.value, types); }
  }

  lemma ReadSentBuddy(s: seq<byte>, at: nat, update: ServerUpdate, types: Types)
    requires update.Buddy? && GoodUpdate(update, types) && Holds(s, at, SendBody(update, types))
    ensures DecodeBuddy(s, at, Opcode(update, types)) == Ok(update, at + |SendBody(update, types)|)
  {
    hide Quad, SendString, Text, U8, U32, Holds;
    HoldsBoth(s, at, Quad(update.character),
      if update.name.Some? then SendString(update.name.value) + [Flag(update.online)] else []);
    ReadQuad(s, at, update.character);
    if update.name.Some? {
      HoldsBoth(s, at + 4, SendString(update.name.value), [Flag(update.online)]);
      ReadText(s, at + 4, update.name.value);
      ReadByte(s, at + 4 + |SendString(update.name.value)|, Flag(update.online));
    }
  }

  lemma ReadSentFieldData(s: seq<byte>, at: nat, update: ServerUpdate, types: Types)
    requires update.FieldData? && GoodUpdate(update, types) && Holds(s, at, SendBody(update, types))
    ensures DecodeFieldData(s, at, types) == Ok(update, at + |SendBody(update, types)|)
  {
    hide SendPosition, ReadPosition, SendThings, Sendable, ReadTile, U16, Holds;
    var tile := update.tile;
    var run := SendThings(tile.things, types) + [0, 0xFF];
    HoldsBoth(s, at, SendPosition(tile.position), run);
    ReadSentPosition(s, at, tile.position);
    ReadSentTile(s, at + 5, [], tile.things, 0, types);
    assert [] + tile.things == tile.things;
    if tile.things == [] {
      MarkerWord(s, at + 5, types);
    }
    ScanOne(s, at + 5, types, tile);
  }

  /** Field data is a run of one field, sent by the counter that sends whole levels. */
  lemma FieldDataIsARun(tile: MapTile, fields: Fields, types: Types)
    requires GoodUpdate(FieldData(tile), types) && AllSendable(fields, types)
    requires Shown(fields(tile.position)) == tile.things
    ensures SendBody(FieldData(tile), types)
      == SendPosition(tile.position) + SendPoints(-1, [tile.position], fields, types)
  {
    hide AllSendable, SendMapObject, SendPosition;
    var p := tile.position;
    assert SkipFlush(0) == [0, 0xFF] by { assert SkipFlush(0) == [0, 0xFF] + SkipFlush(-1); }
    assert SendPoints(0, [p][1..], fields, types) == SkipFlush(0);
    assert fields(p) == [] <==> tile.things == [];
    if tile.things != [] {
      assert SkipFlush(-1) == [];
    }
  }

  lemma ScanOne(s: seq<byte>, at: nat, types: Types, tile: MapTile)
    requires tile.things == [] ==> U16(s, at) == Ok(SKIP_MARKER_BASE, at + 2)
    requires tile.things != [] ==> U16(s, at).Ok? && U16(s, at).value < SKIP_MARKER_BASE
    requires ReadTile(s, at, types, []).Ok? && ReadTile(s, at, types, []).value == Described(tile.things, 0)
    ensures Scan(s, at, types, [tile.position], ScanState(0, []))
      == Ok(ScanState(0, if tile.things == [] then [] else [tile]), if tile.things == [] then at + 2
        else ReadTile(s, at, types, []).at)
  {
    hide U16, ReadTile;
    assert [tile.position][1..] == [];
    assert [] + [tile] == [tile];
  }

  lemma MarkerWord(s: seq<byte>, at: nat, types: Types)
    requires Holds(s, at, SendThings([], types) + [0, 0xFF])
    ensures U16(s, at) == Ok(SKIP_MARKER_BASE, at + 2) && SendThings([], types) == []
  {
    assert SendThings([], types) + [0, 0xFF] == [0, 0xFF];
    HoldsAt(s, at, [0, 0xFF], 0);
    HoldsAt(s, at, [0, 0xFF], 1);
  }

  function SendUpdate(update: ServerUpdate, types: Types): seq<byte>
    requires GoodUpdate(update, types)
  {
    [Opcode(update, types)] + SendBody(update, types)
  }

  /** Decoding undoes encoding for every command that leaves the viewport alone. */
  lemma DecodeUndoesSendUpdate(s: seq<byte>, at: nat, update: ServerUpdate, anchor: MapPosition, types: Types)
    requires !EmptyTable(types) && GoodUpdate(update, types) && Holds(s, at, SendUpdate(update, types))
    ensures Decode(s, at, anchor, types) == Ok(Stepped(update, anchor), at + |SendUpdate(update, types)|)
  {
    hide EmptyTable, GoodUpdate, SendBody, Holds, DecodeFieldData, DecodeAddField, DecodeChangeField, DecodeDeleteField,
      DecodeMoveCreature, DecodeSnapback, DecodeTalk, DecodeMessage, DecodeAmbient, DecodeGraphicalEffect,
      DecodeTextualEffect, DecodeMissileEffect, DecodeMarkCreature, DecodeCreatureAttribute, DecodePlayerState,
      DecodeInventory, DecodeContainer, DecodeOutfitDialog, DecodeBuddy, DecodePlayerData, DecodePlayerSkills,
      DecodeTrade, DecodeChannel, DecodeEditText, DecodeEditList;
    HoldsBoth(s, at, [Opcode(update, types)], SendBody(update, types));
    assert s[at] == Opcode(update, types) && at < |s| by { ReadByte(s, at, Opcode(update, types)); }
    OpcodeSupported(update, types);
    DecodeStillUndoesSend(s, at + 1, update, types);
  }

  lemma OpcodeSupported(update: ServerUpdate, types: Types)
    requires GoodUpdate(update, types)
    ensures Supported(Opcode(update, types)) && !Moves(Opcode(update, types))
  {
  }

  lemma OpcodeRanges(update: ServerUpdate, types: Types)
    requires GoodUpdate(update, types)
    ensures update.CreatureAttribute? ==>
      140 <= Opcode(update, types) <= 145 && Opcode(update, types) == AttributeOpcode(update.attribute)
    ensures update.Container? ==>
      110 <= Opcode(update, types) <= 114 && Opcode(update, types) == ChangeOpcode(update.change)
    ensures update.Inventory? ==> Opcode(update, types) == if update.worn.Some? then 120 else 121
    ensures update.Buddy? ==> 210 <= Opcode(update, types) <= 212
    ensures update.PlayerState? ==> Opcode(update, types) == 162
    ensures update.OutfitDialog? ==> Opcode(update, types) == 200
  {
  }

  /** The walker's switch, read as a table. */
  lemma Dispatch(s: seq<byte>, at: nat, opcode: byte, types: Types)
    requires Supported(opcode) && !Moves(opcode)
    ensures opcode == 180 ==> DecodeStill(s, at, opcode, types) == DecodeMessage(s, at)
    ensures opcode == 170 ==> DecodeStill(s, at, opcode, types) == DecodeTalk(s, at)
    ensures opcode == 130 ==> DecodeStill(s, at, opcode, types) == DecodeAmbient(s, at)
    ensures opcode == 131 ==> DecodeStill(s, at, opcode, types) == DecodeGraphicalEffect(s, at)
    ensures opcode == 132 ==> DecodeStill(s, at, opcode, types) == DecodeTextualEffect(s, at)
    ensures opcode == 133 ==> DecodeStill(s, at, opcode, types) == DecodeMissileEffect(s, at)
    ensures opcode == 134 ==> DecodeStill(s, at, opcode, types) == DecodeMarkCreature(s, at)
    ensures 140 <= opcode <= 145 ==> DecodeStill(s, at, opcode, types) == DecodeCreatureAttribute(s, at, opcode)
    ensures opcode == 162 ==> DecodeStill(s, at, opcode, types) == DecodePlayerState(s, at)
    ensures opcode == 120 || opcode == 121 ==>
      DecodeStill(s, at, opcode, types) == DecodeInventory(s, at, opcode == 121, types)
    ensures 110 <= opcode <= 114 ==> DecodeStill(s, at, opcode, types) == DecodeContainer(s, at, opcode, types)
    ensures opcode == 200 ==> DecodeStill(s, at, opcode, types) == DecodeOutfitDialog(s, at)
    ensures 210 <= opcode <= 212 ==> DecodeStill(s, at, opcode, types) == DecodeBuddy(s, at, opcode)
  {
    hide DecodeSnapback, DecodeTalk, DecodeMessage, DecodeAmbient, DecodeGraphicalEffect, DecodeTextualEffect,
      DecodeMissileEffect, DecodeMarkCreature, DecodeCreatureAttribute, DecodePlayerState, DecodeInventory,
      DecodeContainer, DecodeOutfitDialog, DecodeBuddy, DecodePlayerData, DecodePlayerSkills, DecodeTrade,
      DecodeChannel, DecodeEditText, DecodeEditList;
  }

  predicate IsMapEdit(update: ServerUpdate) {
    update.FieldData? || update.AddField? || update.ChangeField? || update.DeleteField? || update.MoveCreature?
    || update.Snapback?
  }

  lemma MapEditUndoesSend(s: seq<byte>, at: nat, update: ServerUpdate, types: Types)
    requires IsMapEdit(update) && GoodUpdate(update, types) && Holds(s, at, SendBody(update, types))
    ensures Supported(Opcode(update, types)) && !Moves(Opcode(update, types))
    ensures DecodeStill(s, at, Opcode(update, types), types) == Ok(update, at + |SendBody(update, types)|)
  {
    OpcodeSupported(update, types);
    hide GoodUpdate, SendBody, Holds, DecodeFieldData, DecodeAddField, DecodeChangeField, DecodeDeleteField,
      DecodeMoveCreature, DecodeSnapback, DecodeTalk, DecodeMessage, DecodeAmbient, DecodeGraphicalEffect,
      DecodeTextualEffect, DecodeMissileEffect, DecodeMarkCreature, DecodeCreatureAttribute, DecodePlayerState,
      DecodeInventory, DecodeContainer, DecodeOutfitDialog, DecodeBuddy, DecodePlayerData, DecodePlayerSkills,
      DecodeTrade, DecodeChannel, DecodeEditText, DecodeEditList;
    match update
    case FieldData(_) => ReadSentFieldData(s, at, update, types);
    case AddField(_, _) => ReadSentAddField(s, at, update, types);
    case ChangeField(_, _, _) => ReadSentChangeField(s, at, update, types);
    case DeleteField(_, _) => ReadSentDeleteField(s, at, update, types);
    case MoveCreature(_, _, _) => ReadSentMoveCreature(s, at, update, types);
    case Snapback(_) => ReadSentSnapback(s, at, update, types);
  }

  predicate IsPresentation(update: ServerUpdate) {
    update.Message? || update.Talk? || update.Ambient? || update.GraphicalEffect? || update.TextualEffect?
    || update.MissileEffect? || update.MarkCreature?
  }

  lemma PresentationOpcodes(update: ServerUpdate, types: Types)
    requires IsPresentation(update) && GoodUpdate(update, types)
    ensures var opcode := Opcode(update, types);
      && (opcode == 180 <==> update.Message?) && (opcode == 170 <==> update.Talk?)
      && (opcode == 130 <==> update.Ambient?)
      && (opcode == 131 <==> update.GraphicalEffect?) && (opcode == 132 <==> update.TextualEffect?)
      && (opcode == 133 <==> update.MissileEffect?) && (opcode == 134 <==> update.MarkCreature?)
  {
  }

  lemma PresentationUndoesSend(s: seq<byte>, at: nat, update: ServerUpdate, types: Types)
    requires IsPresentation(update) && GoodUpdate(update, types) && Holds(s, at, SendBody(update, types))
    ensures Supported(Opcode(update, types)) && !Moves(Opcode(update, types))
    ensures DecodeStill(s, at, Opcode(update, types), types) == Ok(update, at + |SendBody(update, types)|)
  {
    OpcodeSupported(update, types);
    PresentationOpcodes(update, types);
    Dispatch(s, at, Opcode(update, types), types);
    hide DecodeStill, Moves, Opcode, GoodUpdate, Supported, SendBody, Holds, DecodeFieldData, DecodeAddField,
      DecodeChangeField, DecodeDeleteField, DecodeMoveCreature, DecodeSnapback, DecodeTalk, DecodeMessage,
      DecodeAmbient, DecodeGraphicalEffect, DecodeTextualEffect, DecodeMissileEffect, DecodeMarkCreature,
      DecodeCreatureAttribute, DecodePlayerState, DecodeInventory, DecodeContainer, DecodeOutfitDialog, DecodeBuddy,
      DecodePlayerData, DecodePlayerSkills, DecodeTrade, DecodeChannel, DecodeEditText, DecodeEditList;
    match update
    case Message(_, _) => ReadSentMessage(s, at, update, types);
    case Talk(_, _, _, _, _) => ReadSentTalk(s, at, update, types);
    case Ambient(_, _) => ReadSentAmbient(s, at, update, types);
    case GraphicalEffect(_, _) => ReadSentGraphicalEffect(s, at, update, types);
    case TextualEffect(_, _, _) => ReadSentTextualEffect(s, at, update, types);
    case MissileEffect(_, _, _) => ReadSentMissileEffect(s, at, update, types);
    case MarkCreature(_, _) => ReadSentMarkCreature(s, at, update, types);
  }

  predicate IsPlayerSide(update: ServerUpdate) {
    update.CreatureAttribute? || update.PlayerState? || update.Container? || update.OutfitDialog? || update.Inventory?
    || update.Buddy?
  }

  lemma PlayerSideUndoesSend(s: seq<byte>, at: nat, update: ServerUpdate, types: Types)
    requires IsPlayerSide(update) && GoodUpdate(update, types) && Holds(s, at, SendBody(update, types))
    ensures Supported(Opcode(update, types)) && !Moves(Opcode(update, types))
    ensures DecodeStill(s, at, Opcode(update, types), types) == Ok(update, at + |SendBody(update, types)|)
  {
    OpcodeSupported(update, types);
    OpcodeRanges(update, types);
    Dispatch(s, at, Opcode(update, types), types);
    hide DecodeStill, Moves, Opcode, AttributeOpcode, ChangeOpcode, Supported, GoodUpdate, SendBody, Holds,
      DecodeFieldData, DecodeAddField, DecodeChangeField, DecodeDeleteField, DecodeMoveCreature, DecodeSnapback,
      DecodeTalk, DecodeMessage, DecodeAmbient, DecodeGraphicalEffect, DecodeTextualEffect, DecodeMissileEffect,
      DecodeMarkCreature, DecodeCreatureAttribute, DecodePlayerState, DecodeInventory, DecodeContainer,
      DecodeOutfitDialog, DecodeBuddy, DecodePlayerData, DecodePlayerSkills, DecodeTrade, DecodeChannel, DecodeEditText,
      DecodeEditList;
    match update
    case CreatureAttribute(_, _) => ReadSentCreatureAttribute(s, at, update, types);
    case PlayerState(_) => ReadSentPlayerState(s, at, update, types);
    case Container(_, _) => ReadSentContainer(s, at, update, types);
    case OutfitDialog(_, _, _) => ReadSentOutfitDialog(s, at, update, types);
    case Inventory(_, _) => ReadSentInventory(s, at, update, types);
    case Buddy(_, _, _) => ReadSentBuddy(s, at, update, types);
  }

  predicate IsDialogue(update: ServerUpdate) {
    update.PlayerData? || update.PlayerSkills? || update.Trade? || update.Channel? || update.Editor?
  }

  lemma DialogueDispatch(s: seq<byte>, at: nat, update: ServerUpdate, types: Types)
    requires IsDialogue(update) && GoodUpdate(update, types)
    ensures Supported(Opcode(update, types)) && !Moves(Opcode(update, types))
    ensures var still := DecodeStill(s, at, Opcode(update, types), types);
      && (update.PlayerData? ==> still == DecodePlayerData(s, at))
      && (update.PlayerSkills? ==> still == DecodePlayerSkills(s, at))
      && (update.Trade? ==> still == DecodeTrade(s, at, TradeOpcode(update.trade), types))
      && (update.Channel? ==> still == DecodeChannel(s, at, ChannelOpcode(update.chat)))
      && (update.Editor? ==>
           still == if update.editing.TextEditor? then DecodeEditText(s, at) else DecodeEditList(s, at))
  {
    hide DecodePlayerData, DecodePlayerSkills, DecodeTrade, DecodeChannel, DecodeEditText, DecodeEditList, GoodTrade,
      GoodChannel, GoodEditor;
  }

  lemma DialogueUndoesSend(s: seq<byte>, at: nat, update: ServerUpdate, types: Types)
    requires IsDialogue(update) && GoodUpdate(update, types) && Holds(s, at, SendBody(update, types))
    ensures Supported(Opcode(update, types)) && !Moves(Opcode(update, types))
    ensures DecodeStill(s, at, Opcode(update, types), types) == Ok(update, at + |SendBody(update, types)|)
  {
    hide DecodeStill, Holds, ReadStats, SendStats, DecodePlayerSkills, SendSkills, DecodeTrade, SendTrade, GoodTrade,
      DecodeChannel, SendChannel, GoodChannel, DecodeEditText, DecodeEditList, SendEditor, GoodEditor, Supported, Moves,
      Opcode;
    DialogueDispatch(s, at, update, types);
    match update
    case PlayerData(stats) => ReadSentStats(s, at, stats);
    case PlayerSkills(skills) => ReadSentSkills(s, at, skills);
    case Trade(trade) => ReadSentTrade(s, at, trade, types);
    case Channel(change) => ReadSentChannel(s, at, change);
    case Editor(editing) => ReadSentEditor(s, at, editing);
  }

  lemma DecodeStillUndoesSend(s: seq<byte>, at: nat, update: ServerUpdate, types: Types)
    requires GoodUpdate(update, types) && Holds(s, at, SendBody(update, types))
    ensures Supported(Opcode(update, types)) && !Moves(Opcode(update, types))
    ensures DecodeStill(s, at, Opcode(update, types), types) == Ok(update, at + |SendBody(update, types)|)
  {
    NoBody(update, types);
    if IsMapEdit(update) {
      MapEditUndoesSend(s, at, update, types);
    } else if IsPresentation(update) {
      PresentationUndoesSend(s, at, update, types);
    } else if IsPlayerSide(update) {
      PlayerSideUndoesSend(s, at, update, types);
    } else if IsDialogue(update) {
      DialogueUndoesSend(s, at, update, types);
    }
  }

  lemma NoBody(update: ServerUpdate, types: Types)
    requires GoodUpdate(update, types)
    ensures update.Ping? || update.ClearTarget? ==> SendBody(update, types) == []
    ensures update.Ping? || update.ClearTarget? || IsMapEdit(update) || IsPresentation(update) || IsPlayerSide(update)
      || IsDialogue(update)
  {
  }
}
