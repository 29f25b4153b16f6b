# Verified model of the Tibia 7.72 client core and its reference server

This project models how the client keeps its picture of the world, and the parts of the
reference server that picture depends on, and proves that the picture is right.

The server sends one full snapshot and then only what changes: the row or the floors that a
step reveals, without coordinates, and edits of single fields. The client keeps an anchor,
merges what arrives and forgets what left. The central result is that after any run of steps,
floor changes, teleports and edits the client's mirror is the snapshot it would get by logging
in again (`Snapshot.MirrorEqualsFreshSnapshot`), and that this holds from the bytes the server
writes to the state the client holds (`EndToEnd.BytesKeepMirror`), through ring buffer, packets,
cipher and frames (`WholeWay.EveryPacketKeepsMirror`), with any other commands between those
about the map. The server's table of known creatures is modelled too: every creature on the
client's map is recorded where it stands (`Presence.EveryLoginIsPlaced`). Where the program falls
short of that, the exact condition is proved: a field with more than ten objects
(`Snapshot.UntrackableBreaksMirror`), an object added on a level out of range
(`Runs.AddFieldStaysInside`), a move to a field out of view (`Runs.MoveCreatureStaysInside`), an
effect that writes inventory slot zero (`Runs.EffectsWriteSlotZero`), a disguise that changes
the order of a stack or the bytes of an item (`Disguise.PlacesAreKeptExactly`,
`Disguise.FaceIsReadExactly`), a packet with nothing in it (`Delivery.EmptyPacketsExactly`), a
mark about a creature the client was never told of (`Presence.AnomaliesAreUnlistedMarks`).

## How the files fit together

| files | part of the system |
|---|---|
| World, Chunks, Ordering | shared values, bytes inside streams, walks over ordered maps |
| Viewport, ObjectTypes, Updates | viewport geometry, object types and stack order, decoded commands |
| Floors, Mirror, WorldState | stored floors and creature records, as functions and as the class that rewrites them in place |
| Snapshot, Creatures, Runs | the mirror against the server's world, creature records against the map, invariants of every run |
| KnownCreatures, Presence | the server's table of known creatures, and the records it keeps right |
| Disguise | the server's objects and the types they are shown as |
| MapScan, MapScanner, MapCodec, Geometry | the skip-run map code: reader, scanner class, server's encoder, shape of what decodes |
| Commands, Decoder, Streams, CommandCodec | the command walker, its loops, self-delimitation, round trips |
| Payload, EndToEnd | whole payloads, for any bytes and for the server's |
| Limits | payloads on which the stronger promises fail |
| Routes, AStar, Breadth, MinimapFile, Minimap | routes, the two searches, the text form, the class |
| WorldView | the event differ and its consumer |
| Framing, Xtea, ServerOutput, Delivery, WholeWay | frames, cipher, the server's ring buffer and packets, what reaches the client and its mirror |
| WaitingList, WaitingQueue | the login queue as lists and as a linked list in memory |
| StackPool | thread stacks and connection counts under interleaving |
| Ledger | walk requests and their answers |
| Sector, SectorReader | the map sector parser |

Where the source computes, the model is a function; where it changes things in loops, the model
is a method or a class proved to compute that function, and the properties are proved about the
function. Functions named in a contract are the definitions to read next to it.

`dafny verify dfyconfig.toml` checks everything.

## Where the code is weaker than it looks

- An object added to a field is tested against the window but not against the visible levels
  (`clientcore/src/movement.cpp:1016-1021`), and the destination of a move is not tested at all
  (`clientcore/src/movement.cpp:1094`). The model follows the code, so tiles are known to be in
  view after a snapshot, a row or a floor change, and not after every update.
- The three effects fall through into the inventory case
  (`clientcore/src/movement.cpp:1185-1203`), so they do change the state.
- Merging appends tiles, so the order of tiles within a level differs from that of a fresh
  snapshot; mirrors are compared field by field and by their level order.
- The thread that is woken to send does not test whether anything is committed
  (`reference/game/src/communication.cc:1405-1410`); only the thread that wakes it does
  (`reference/game/src/sending.cc:27-28`). A second wake-up that is pending when the first one
  is served sends an empty packet, and the client refuses it
  (`clientcore/src/crypto.cpp:410-414`).
- The server ranks an object and writes its flag bytes by its real type but names the type it is
  shown as (`reference/game/src/sending.cc:170-188`), from which the client takes both. That is
  right exactly for disguises that keep the order and the flags.
- When a party changes, marks are sent without a look at the table of known creatures
  (`reference/game/src/operate.cc:3880-3904`), so a client can receive one about a creature it
  does not know; it reports that and ignores the mark.
- An abandoned place in that table may go to another creature in the same message that describes
  its old owner again (`reference/game/src/connections.cc:411-419`); the client drops the record
  and makes it anew.

## Model

| member | source | states |
|---|---|---|
| `Snapshot.MirrorEqualsFreshSnapshot` | clientcore/src/movement.cpp:949-995 | Log in anywhere, then let any run of steps, floor changes, teleports and field edits happen: the stored levels, offsets, window and the stack of every field are those of a snapshot taken now. |
| `Snapshot.SessionKeepsMirror` | clientcore/src/movement.cpp:949-1114 | Every announced run keeps the mirror exact, from any exact mirror. |
| `Snapshot.EventKeepsMirror` | clientcore/src/movement.cpp:949-1114 | One announced event of any of the ten kinds, commands that are not about fields included, keeps the mirror exact, provided fields hold what a ten-object reader can follow. |
| `Snapshot.UntrackableBreaksMirror` | clientcore/src/movement.cpp:1016-1114 | The condition is exact: placing on a field with ten or more, removing one of the first ten of more than ten, or moving a creature onto its own field so that it comes back beyond the tenth, always leaves the mirror wrong. |
| `Snapshot.RevealKeepsMirror` | clientcore/src/movement.cpp:56-102 | Merging any reveal and pruning to the new anchor keeps the mirror exact whenever the reveal covers every field and level that was not in view. |
| `Snapshot.RowKeepsMirror` | clientcore/src/movement.cpp:961-977 | A row keeps the mirror exact at every anchor, in every direction. |
| `Snapshot.FloorChangeKeepsMirror` | clientcore/src/movement.cpp:979-995 | A floor change keeps the mirror exact above ground, below it and across the surface, although the command carries no coordinates. |
| `Snapshot.WriteKeepsMirror` | clientcore/src/movement.cpp:104-136 | Writing one field in view keeps all other fields and the level order, and drops the tile when it becomes empty. |
| `Snapshot.WalkKeepsMirror` | clientcore/src/movement.cpp:1076-1114 | A creature move takes the creature off one stack and puts it on the other where the server puts it, also on adjacent fields of different levels, and also when it ends where it began. |
| `Snapshot.ReturnIsShown` | clientcore/src/movement.cpp:1076-1114 | A move that does not move, on a field with more objects than are shown: taking the creature off what is shown and putting it back shows what the server holds if and only if it comes back among the first ten. |
| `Snapshot.OrderedReturnStays` | reference/game/src/map.cc:2017-2132 | On a stack in the order the server keeps it always does. |
| `Snapshot.InsertionAgrees` | clientcore/src/object_types.cpp:129-146 | The index computed from wire descriptors, creatures in whatever form, is the one the placement rule gives for the types shown; for the server's own objects see Disguise.PlacesAreKeptExactly. |
| `Snapshot.SilentEditKeepsMirror` | clientcore/src/movement.cpp:997-1114 | A change of what is not shown, beyond the tenth object or outside the viewport, needs no command. |
| `Snapshot.ServerSeesTheViewport` | reference/game/src/connections.cc:357-378 | The server's visibility test and the client's viewport are the same set of fields. |
| `Snapshot.SnapshotMirrors` | clientcore/src/initial_world.cpp:95-164 | Applying a snapshot makes the mirror exact whatever was stored before. |
| `Mirror.AsideKeepsMap` | clientcore/src/movement.cpp:1116-1309 | A command that is not about fields changes no floor, no anchor and no window. |
| `Disguise.FaceIsSent` | reference/game/src/sending.cc:170-188 | An object shown as another type, its flag bytes written by its own type, is the item the client can read, if its type has the flags of the one it is shown as. |
| `Disguise.FaceIsReadExactly` | reference/game/src/sending.cc:170-188 | The client reads such an object as what it is shown as, and stops where it ends, if and only if the disguise keeps the flags. |
| `Disguise.PlacesAreKeptExactly` | reference/game/src/map.cc:1994-2092 | The client finds every place the server chooses by the real types, on every stack of given objects, if and only if the shown types stand to each other as the real ones do. |
| `Disguise.SamePriorityIsDiscreet` | reference/game/src/map.cc:1994-2015 | It is enough that every type has the priority of the type it is shown as. |
| `Disguise.SeenFollows` | reference/game/src/map.cc:2017-2142 | Under that condition every event of the server's world of objects is the same event of the world as shown, place included. |
| `Disguise.RealRunsAreSeen` | reference/game/src/sending.cc:170-283 | Under it a truthful, trackable run of the server's own objects is one of the objects as shown. |
| `Disguise.RealBytesKeepMirror` | reference/game/src/sending.cc:170-283 | Under it the bytes sent about any such run leave the client with exactly what the server's objects look like. |
| `Disguise.IndiscretionBreaksMirror` | reference/game/src/map.cc:2017-2092 | Two objects whose disguises change which goes below the other, on one field, leave the mirror wrong. |
| `Viewport.RowCoversWhatAppears` | clientcore/src/movement.cpp:20-32 | The rectangle of a row is exactly the fields that come into view with the step, on every level. |
| `Viewport.FloorChangeCoversWhatAppears` | clientcore/src/movement.cpp:583-626 | The levels a floor change delivers are exactly the fields that come into view, and x+z and y+z of the anchor are kept. |
| `Viewport.FloorChangeCompletesRange` | clientcore/src/movement.cpp:464-494 | Held and delivered levels are disjoint and together cover the new range. |
| `Viewport.FloorChangeRange` | clientcore/src/movement.cpp:464-494 | The delivered run of levels always advances towards its end. |
| `Viewport.ViewportFloorRange` | clientcore/src/map_scan.cpp:7-21 | The visible run of levels always advances towards its end for valid levels. |
| `Viewport.FloorsOf` | clientcore/src/map_scan.cpp:7-21 | The levels of a run, each once, in emission order. |
| `WorldStates.WorldState.FindTile` | clientcore/src/worldstate.cpp:7-25 | Finds the tile of a position if and only if one is stored. |
| `WorldStates.WorldState.VisibleCreatureIds` | clientcore/src/worldstate.cpp:44-57 | Exactly the ids of the creatures on stored tiles. |
| `WorldStates.WorldState.FindOrCreateFloor` | clientcore/src/movement.cpp:42-54 | The floor of a level, appended only when missing. |
| `WorldStates.WorldState.MergeFloor` | clientcore/src/movement.cpp:56-69 | In place, the value of Floors.MergeFloor. |
| `WorldStates.WorldState.PruneToAnchor` | clientcore/src/movement.cpp:74-102 | In place, the value of Floors.Prune, and the window of the anchor. |
| `WorldStates.WorldState.EnsureTile` | clientcore/src/movement.cpp:114-123 | The floor and tile of a position, created only when missing; the indexes returned point at it. |
| `WorldStates.WorldState.RemoveTileIfEmpty` | clientcore/src/movement.cpp:125-136 | Removes the tile of a position exactly when it holds nothing. |
| `WorldStates.WorldState.RecordCreature` | clientcore/src/movement.cpp:138-173 | In place, the value of Mirror.RecordCreature with its anomalies. |
| `WorldStates.WorldState.RecordFloors` | clientcore/src/movement.cpp:967-975 | Every described creature is recorded, in emission order. |
| `WorldStates.WorldState.RefreshTileCreatures` | clientcore/src/movement.cpp:177-186 | Every known creature on a stack gets its new index. |
| `WorldStates.WorldState.ApplyFullScreen` | clientcore/src/initial_world.cpp:95-164 | The whole new state and the anomalies of a snapshot. |
| `WorldStates.WorldState.ApplyRevealed` | clientcore/src/movement.cpp:961-995 | The whole new state and the anomalies of a row or floor change. |
| `WorldStates.WorldState.ApplyFieldData` | clientcore/src/movement.cpp:997-1014 | The whole new state and the anomalies of field data. |
| `WorldStates.WorldState.ApplyAddField` | clientcore/src/movement.cpp:1016-1034 | The whole new state and the anomalies of an added object. |
| `WorldStates.WorldState.ApplyChangeField` | clientcore/src/movement.cpp:1036-1051 | The whole new state and the anomalies of a changed object. |
| `WorldStates.WorldState.ApplyDeleteField` | clientcore/src/movement.cpp:1053-1074 | The whole new state and the anomalies of a removed object. |
| `WorldStates.WorldState.ApplyMoveCreature` | clientcore/src/movement.cpp:1076-1114 | The whole new state and the anomalies of a moved creature. |
| `WorldStates.WorldState.ApplyServerUpdate` | clientcore/src/movement.cpp:949-1309 | For every update the in-place result is the value of Mirror.Apply, about which the runs are proved. |
| `Floors.MergeFloorsAt` | clientcore/src/movement.cpp:56-69 | After merging, a field shows what was delivered for it, or what it showed before. |
| `Floors.PruneAt` | clientcore/src/movement.cpp:74-102 | After pruning, a field in view shows what it did and a field out of view nothing. |
| `Floors.PruneLevels` | clientcore/src/movement.cpp:74-102 | If every visible level is held, pruning leaves exactly them, in emission order. |
| `Floors.SortFloorsSorts` | clientcore/src/movement.cpp:74-102 | Sorting orders the levels by the emission direction and loses none. |
| `Floors.WriteFieldAt` | clientcore/src/movement.cpp:104-136 | A written field shows what was written, every other what it showed, and the shape invariant is kept. |
| `ObjectTypes.ObjectTypeTable.Declare` | clientcore/src/object_types.cpp:111-122 | Declares a type id at most once; other ids read as before and the gap reads as undeclared. |
| `ObjectTypes.MapStackInsertIndex` | clientcore/src/object_types.cpp:129-146 | The loop computes InsertIndex. |
| `ObjectTypes.InsertIndexPlaces` | clientcore/src/object_types.cpp:129-146 | The new object lands behind all more important ones, and in front of its equals exactly for creatures and low objects; order is kept. |
| `ObjectTypes.PlacementIsUnique` | clientcore/src/object_types.cpp:129-146 | Only one index satisfies that placement rule on a sorted stack. |
| `Runs.EveryRunKeepsShape` | clientcore/src/movement.cpp:949-1309 | In every reachable state: one floor a level, one tile a position, tiles on their own floor, no empty tile; and after a snapshot, row or floor change every tile is in view. |
| `Runs.UpdateKeepsShape` | clientcore/src/movement.cpp:949-1309 | One update of any kind keeps that shape. |
| `Runs.EveryRunPlacesCreatures` | clientcore/src/movement.cpp:138-186 | In every run, of whatever origin, where each creature stands on one field and nobody evicted is on the map, each creature on the map has a record with its exact field and stack index; for what a server sends see Presence.EveryLoginIsPlaced. |
| `Presence.EveryLoginIsPlaced` | reference/game/src/connections.cc:380-454 | From a login on, through any run of announcements, changes, marks and creatures that cease to exist: each creature on the client's map has a record with its exact field and stack index, and, while no more creatures are in sight than the table has places, the client's anomalies are exactly the marks sent about creatures not in the server's table, in order. |
| `Presence.RunKeepsTogether` | clientcore/src/movement.cpp:949-1134 | The same from any state in which table, records and map agree; whatever the crowd, the client reports nothing but a miss on a mark or the overflow of its own count. |
| `Presence.AnomaliesAreUnlistedMarks` | reference/game/src/operate.cc:61-90 | While the table has room, reports of the client and unlisted marks of the server are the same list: nothing sent through the table is ever unknown, and the marks of skulls and parties that go around it are reported exactly when it does not list the creature. |
| `Presence.TurnKeepsTogether` | reference/game/src/sending.cc:199-269 | One turn of any kind keeps table, records and map in agreement. |
| `Presence.UpdateKeepsStep` | clientcore/src/movement.cpp:949-1134 | One update whose descriptors follow the table keeps that agreement, and the client's reports are exactly as foreseen. |
| `Presence.LoginIsTogether` | clientcore/src/initial_world.cpp:95-164 | A first full screen, described from an empty table, establishes it. |
| `KnownCreatures.KnownCreatureTable.KnownCreature` | reference/game/src/connections.cc:380-398 | The state of a creature's slot, brought up to date when a description follows. |
| `KnownCreatures.KnownCreatureTable.NewKnownCreature` | reference/game/src/connections.cc:400-454 | The own slot, the first free one or the first of a creature out of sight, and whose place was taken. |
| `KnownCreatures.KnownCreatureTable.ClearKnownCreatureTable` | reference/game/src/connections.cc:456-465 | Every slot is free and names nobody. |
| `KnownCreatures.KnownCreatureTable.CreatureChanged` | reference/game/src/operate.cc:61-90 | A change is announced exactly over an up-to-date slot of a creature in sight; out of sight the slot goes out of date. |
| `KnownCreatures.KnownCreatureTable.CreatureGone` | reference/game/src/crmain.cc:277-284 | The slot becomes free and keeps naming the creature. |
| `KnownCreatures.ToldAllAgrees` | reference/game/src/connections.cc:380-454 | Through all descriptions of a message the table lists nobody twice, everyone it lists is known to the client, and the client reports nothing. |
| `KnownCreatures.ToldAllPlaces` | reference/game/src/connections.cc:400-454 | A creature in sight that is described, or was held and recorded, ends up held and recorded where it stands, whatever places the message reuses on the way. |
| `KnownCreatures.ToldAllLists` | reference/game/src/connections.cc:400-454 | While no more creatures are in sight than places, the table goes on listing everyone the client knows. |
| `KnownCreatures.RoomUnlessCrowded` | reference/game/src/connections.cc:421-437 | A creature in sight finds no place only when more creatures are in sight than there are places. |
| `KnownCreatures.EvictedAndShown` | reference/game/src/connections.cc:411-419 | A message may take away a creature's place and describe it anew right after, so being evicted and standing on the map exclude each other only across messages. |
| `Runs.AddFieldStaysInside` | clientcore/src/movement.cpp:1016-1034 | An added object keeps every tile in view if and only if it was refused or its level is in range: the window is tested, the level is not. |
| `Runs.MoveCreatureStaysInside` | clientcore/src/movement.cpp:1076-1114 | A move keeps every tile in view if and only if its destination is in view: the destination is not tested. |
| `Runs.EveryStateIsSound` | clientcore/src/movement.cpp:949-1309 | Both claims for everything a client can live through from its start. |
| `Limits.AddFieldLeavesViewport` | clientcore/src/movement.cpp:1016-1021 | From bytes: after a snapshot, eight bytes make the client store an object outside its viewport. |
| `Limits.MoveCreatureLeavesViewport` | clientcore/src/movement.cpp:1076-1114 | From bytes: twelve bytes make it store a creature a hundred fields away. |
| `Limits.EleventhObjectBreaksMirror` | clientcore/src/movement.cpp:1016-1034 | From bytes: ten objects are mirrored exactly, and the eleventh the server adds is not. |
| `Runs.EffectsWriteSlotZero` | clientcore/src/movement.cpp:1185-1203 | The three effects share the inventory branch: an effect touches nothing but the unused slot zero, changes the state exactly when no effect came before, and a second one never does. |
| `Runs.DeleteUndoesCreate` | clientcore/src/movement.cpp:1205-1258 | Deleting slot zero undoes a creation exactly when nothing was pushed out of the container. |
| `Creatures.UpdatePlaces` | clientcore/src/movement.cpp:949-1309 | One update of any kind keeps records and stacks in agreement. |
| `Creatures.RecordedFloorsPlace` | clientcore/src/movement.cpp:138-173 | Recording described creatures places them and disturbs nobody else. |
| `Creatures.EditPlaces` | clientcore/src/movement.cpp:177-186 | After inserting or replacing in a stack, every creature shifted in it is recorded at its new index. |
| `Creatures.MoveCreaturePlaces` | clientcore/src/movement.cpp:1076-1114 | The mover is recorded on its new field and everyone it passed at the new indexes. |
| `MapScanners.MapScanner.ReadThing` | clientcore/src/map_scan.cpp:156-228 | Reads one item or creature descriptor, or sets the first error; the item bytes are those the type's flags announce. |
| `MapScanners.MapScanner.ReadCreatureName` | clientcore/src/map_scan.cpp:89-103 | Refuses a name longer than the server's buffer before reading it. |
| `MapScanners.MapScanner.ReadOutfit` | clientcore/src/map_scan.cpp:107-123 | Two outfit forms, selected by a zero id. |
| `MapScanners.MapScanner.ReadDescriptor` | clientcore/src/map_scan.cpp:127-151 | The fields of a full descriptor in order. |
| `MapScanners.MapScanner.ReadItem` | clientcore/src/map_scan.cpp:287-316 | An item where no creature can stand. |
| `MapScanners.MapScanner.ReadPosition` | clientcore/src/map_scan.cpp:247-256 | A position whose level is addressable. |
| `MapScanners.MapScanner.ReadDescribedTile` | clientcore/src/map_scan.cpp:333-353 | At most ten objects and the marker that ends the tile. |
| `MapScanners.MapScanner.ScanRect` | clientcore/src/map_scan.cpp:355-395 | The loops compute MapScan.Scan, carry the skip over the rectangle's end, and count every field as described or skipped. |
| `MapScanners.MapScanner.FinishRun` | clientcore/src/map_scan.cpp:397-404 | Succeeds exactly when no skip is left. |
| `MapScanners.MapScanner.ReadFloors` | clientcore/src/initial_world.cpp:12-93 | All levels of a run with the skip carried from floor to floor; described plus skipped fields are the whole area. |
| `MapCodec.SendMap` | reference/game/src/sending.cc:190-197 | The server's skip counter, flushed in runs of up to 256 fields, writes MapCodec.SendPoints. |
| `MapCodec.ReadFloorsUndoesSending` | clientcore/src/map_scan.cpp:333-404 | Decoding undoes skip-run encoding for any fields, rectangle and levels: exactly the described fields at their positions, the run used up, what follows untouched. |
| `MapCodec.ScanSent` | clientcore/src/map_scan.cpp:355-395 | The same for the first part of a run, which may end inside a skip. |
| `MapCodec.ReadSentThing` | reference/game/src/sending.cc:199-269 | Any object the server can describe is read back. |
| `MapCodec.ReadSentTile` | reference/game/src/sending.cc:271-283 | A described field is read back with its first ten objects. |
| `Geometry.DecodedFloorsAreSound` | clientcore/src/initial_world.cpp:12-93 | Whatever the bytes, floors that decode are well-formed, list the levels in order, and lie in the scanned rectangle. |
| `Geometry.DescribedFloorsShow` | reference/game/src/sending.cc:271-283 | Floors made from sent fields show each field of the region with at most ten objects, and no other. |
| `Decoders.DecodeServerUpdate` | clientcore/src/movement.cpp:496-947 | The mutable decoder returns Commands.Decode, errors included, on every payload and position. |
| `Decoders.DecodeFullScreen` | clientcore/src/initial_world.cpp:12-93 | Reads a snapshot; described plus skipped tiles are the window times the levels. |
| `Decoders.DecodeRow` | clientcore/src/movement.cpp:545-581 | Reads a row at the anchor stepped to. |
| `Decoders.DecodeFloorChange` | clientcore/src/movement.cpp:583-626 | Reads a floor change at the anchor stepped to. |
| `Decoders.DecodeFieldData` | clientcore/src/movement.cpp:628-643 | Reads one field; a skip left over is an error. |
| `Decoders.DecodeAddField` | clientcore/src/movement.cpp:645-655 | Reads a position and a thing. |
| `Decoders.DecodeChangeField` | clientcore/src/movement.cpp:657-677 | Reads a position, a stack index below ten and a thing. |
| `Decoders.DecodeDeleteField` | clientcore/src/movement.cpp:679-696 | Reads a position and a stack index below ten. |
| `Decoders.DecodeMoveCreature` | clientcore/src/movement.cpp:698-718 | Reads two positions around a stack index below ten. |
| `Decoders.DecodeTalk` | clientcore/src/movement.cpp:730-785 | Reads a talk whose mode selects its tail. |
| `Decoders.ReadTalkTail` | clientcore/src/movement.cpp:1311-1338 | The tail of each talk layout; unknown modes are refused. |
| `Decoders.DecodeCreatureAttribute` | clientcore/src/player_state.cpp:40-67 | The six attribute bodies. |
| `Decoders.DecodeInventory` | clientcore/src/player_state.cpp:114-127 | Slots one to ten; a cleared slot has no item. |
| `Decoders.DecodeContainer` | clientcore/src/player_state.cpp:129-207 | The five container changes, the opened one with its counted list. |
| `Decoders.ReadStats` | clientcore/src/player_state.cpp:74-91 | The eleven numbers of the player's condition in order. |
| `Decoders.DecodePlayerSkills` | clientcore/src/player_state.cpp:93-108 | Seven skills, a level and a percentage each. |
| `Decoders.DecodeTrade` | clientcore/src/trade.cpp:67-108 | An offer with its counted list, or the end of the trade. |
| `Decoders.ReadChannelChange` | clientcore/src/channels.cpp:53-107 | The five channel changes, the list with its counted entries. |
| `Decoders.DecodeEditText` | clientcore/src/editors.cpp:53-68 | A text to edit and who wrote it. |
| `Decoders.DecodeEditList` | clientcore/src/editors.cpp:70-78 | A list to edit. |
| `Decoders.DecodeBuddy` | clientcore/src/player_state.cpp:209-221 | A named entry or a status. |
| `Streams.CommandsAreSelfDelimiting` | clientcore/src/movement.cpp:496-947 | A supported command that decodes is unchanged by anything appended, takes at least its opcode, and every proper prefix of it is refused as truncated. |
| `Streams.DecodeStable` | clientcore/src/movement.cpp:496-947 | On a longer payload a command reads the same, unless it had been cut off. |
| `Streams.ReadTileStable` | clientcore/src/map_scan.cpp:333-353 | The same for a described tile. |
| `Streams.ReadItemsStable` | clientcore/src/player_state.cpp:169-205 | The same for the counted list of a container. |
| `Streams.ReadEntriesStable` | clientcore/src/channels.cpp:90-106 | The same for the counted list of channels. |
| `Streams.ReadTalkTailStable` | clientcore/src/movement.cpp:1311-1338 | The same for the tail a talk mode selects. |
| `CommandCodec.DecodeUndoesSendUpdate` | clientcore/src/movement.cpp:628-947 | Decoding undoes encoding for every command that leaves the viewport alone, and stops exactly at its end. |
| `CommandCodec.ReadSentTalk` | clientcore/src/movement.cpp:730-785 | A talk with any of its tails is read back. |
| `CommandCodec.ReadSentContainer` | reference/game/src/sending.cc:696-798 | All five container commands are read back. |
| `CommandCodec.ReadSentPossession` | reference/game/src/sending.cc:836-883 | A trade offer of a container with whatever is nested in it reads back as all its objects: the announced count and the objects sent come from separate recursions and agree. |
| `CommandCodec.ReadSentChannel` | reference/game/src/sending.cc:1438-1616 | All five channel commands are read back. |
| `CommandCodec.ReadSentFieldData` | reference/game/src/sending.cc:580-595 | A field sent as objects is read back, the empty field included. |
| `CommandCodec.FieldDataIsARun` | reference/game/src/sending.cc:580-595 | Field data is a run of one field, sent by the counter that sends whole levels. |
| `Payload.ApplyPayload` | unreal/REAL33D/Source/REAL33D/Private/Real33DBridge.cpp:1034-1490 | The receive loop ends where and how the walk does, and leaves the state that the walked commands make; the shape invariant holds throughout. |
| `Payload.NextAdvances` | unreal/REAL33D/Source/REAL33D/Public/Real33DHandshakeFrame.h:83-105 | A command at a boundary, of the handshake or the decoder's, is at least a byte long and ends within the payload, so the loop ends. |
| `Payload.AnyPayloadKeepsShape` | clientcore/src/movement.cpp:496-1309 | No payload, however malformed, takes the mirror out of shape. |
| `Payload.DecodesSoundly` | clientcore/src/movement.cpp:496-947 | Whatever decodes, of whatever bytes, meets what the invariants ask of an update. |
| `Payload.AnchorFollows` | clientcore/src/movement.cpp:949-995 | Applying a decoded command leaves the anchor the decoder stepped to. |
| `EndToEnd.DecodeUndoesEncode` | reference/game/src/sending.cc:421-595 | Snapshot, row, floor change, handshake or any other command: the client reads what the server encoded, exactly. |
| `EndToEnd.StartIsSent` | reference/game/src/sending.cc:366-376 | The start of the game is read back wherever it stands in a payload. |
| `EndToEnd.WalkUndoesEncoding` | clientcore/src/movement.cpp:496-947 | Walking the concatenated encodings of any list of commands returns that list with nothing left over. |
| `EndToEnd.TruthfulAnnounces` | reference/game/src/sending.cc:421-578 | What a client makes of commands sent from the world as shown announces the event. |
| `EndToEnd.BytesKeepMirror` | clientcore/src/movement.cpp:496-995 | From bytes to mirror: after walking what the server sent about any trackable run, whatever other commands lie between the map commands, the state mirrors the world as it is then. |
| `Minimap.KnownMinimap.FindPath` | clientcore/src/minimap.cpp:52-100 | A path is found exactly when valid ends on one level are joined by usable fields, and no route is shorter; both loops end. |
| `Minimap.KnownMinimap.FindNavigationPath` | clientcore/src/minimap.cpp:101-145 | A shortest complete route when there is one; otherwise found exactly when a reachable field other than the start borders the unknown, and then the best such segment; refused goals are never reachable. |
| `Minimap.KnownMinimap.Explore` | clientcore/src/minimap.cpp:113-144 | The breadth-first half computes the best segment towards unexplored terrain. |
| `Minimap.Retrace` | clientcore/src/minimap.cpp:82-86 | The parent walk ends and yields a route as long as the recorded cost. |
| `AStar.FrontierUnderestimates` | clientcore/src/minimap.cpp:74-98 | On the way to any field not expanded there is one on the frontier that underestimates the whole way. |
| `AStar.TopIsOptimal` | clientcore/src/minimap.cpp:78-86 | The preferred entry, if not stale, is expanded at its least cost and never again. |
| `AStar.StaleIsHarmless` | clientcore/src/minimap.cpp:81 | Skipping a stale entry keeps the invariant. |
| `AStar.PushHolds` | clientcore/src/minimap.cpp:87-97 | A strictly better way keeps the invariant, and is never one to a field already expanded. |
| `AStar.PushIsNew` | clientcore/src/minimap.cpp:87-97 | No entry is pushed twice, so the queue is a set. |
| `AStar.ExhaustedIsComplete` | clientcore/src/minimap.cpp:98-99 | When the frontier is empty everything reachable has been expanded. |
| `Breadth.SpreadIsOptimal` | clientcore/src/minimap.cpp:120-140 | When the queue is used up, every recorded cost is least and everything reachable was visited. |
| `Breadth.ExhaustedIsBest` | clientcore/src/minimap.cpp:120-141 | The best seen is best of all: nearest to the goal, then shortest. |
| `Minimap.KnownMinimap.Observe` | clientcore/src/minimap.cpp:42-51 | The new memory, with the cell limit and the live set. |
| `Minimap.ObservedShape` | clientcore/src/minimap.cpp:42-51 | Nothing known is forgotten and only the limit keeps a valid description out. |
| `Minimap.ObservedSeen` | clientcore/src/minimap.cpp:42-51 | A field is live exactly when it was described this time and is known; others are as before. |
| `Minimap.ObservedIsLatest` | clientcore/src/minimap.cpp:42-51 | A live field is remembered by its last description. |
| `Minimap.EveryRunStaysSound` | clientcore/src/minimap.cpp:42-182 | Over any run of observations and loads: live within known, valid positions, the cell limit. |
| `Minimap.KnownMinimap.Save` | clientcore/src/minimap.cpp:147-156 | Writes MinimapFile.Saved, cells in the order of the map. |
| `Minimap.KnownMinimap.Load` | clientcore/src/minimap.cpp:157-182 | Takes exactly the texts that MinimapFile.Loaded takes, and a refused text changes nothing. |
| `MinimapFile.LoadUndoesSave` | clientcore/src/minimap.cpp:147-182 | Loading what was saved gives the same terrain if and only if the limits hold, the scope is the one saved and every cell is one the format can hold; otherwise nothing. |
| `MinimapFile.SavedFits` | clientcore/src/minimap.cpp:147-158 | Terrain within the cell limit always fits the text limit. |
| `MinimapFile.ScopeMustBeAWord` | clientcore/src/minimap.cpp:157-164 | Nothing can be loaded under a scope that is empty or has a space in it. |
| `MinimapFile.LoadedIsStorable` | clientcore/src/minimap.cpp:166-178 | Whatever loads is within the limits and holds valid cells. |
| `MinimapFile.WordsOfPrint` | clientcore/src/minimap.cpp:147-170 | Formatted extraction sees exactly the words that were written. |
| `MinimapFile.NumberOfDecimal` | clientcore/src/minimap.cpp:147-170 | A printed number is read back. |
| `World.SameStack` | clientcore/src/worldview.cpp:31-38 | Two stacks are the same exactly when they agree field by field, whatever form creature descriptors took. |
| `WorldViews.WorldView.Diff` | clientcore/src/worldview.cpp:49-186 | The events and the whole new view, from the old view and the next state. |
| `WorldViews.WorldView.Reset` | clientcore/src/worldview.cpp:40-47 | Forgets everything. |
| `WorldViews.DiffReplays` | clientcore/src/worldview.cpp:49-186 | Replaying one diff takes what a consumer draws from the old view to the new one. |
| `WorldViews.RunRebuildsLastState` | clientcore/src/worldview.cpp:49-186 | Replaying the events of any run of diffs from a blank scene rebuilds the last state: fields, creatures, anchor, combat, identity. |
| `WorldViews.RunDrawsMirror` | clientcore/src/worldview.cpp:49-186 | The rebuilt scene is the mirror: its stacks, and each creature that stands on one, where it stands and as its record faces. |
| `WorldViews.SilentExactly` | clientcore/src/worldview.cpp:49-186 | A diff is silent if and only if nothing drawable differs. |
| `WorldViews.SecondDiffIsSilent` | clientcore/src/worldview.cpp:49-186 | Diffing the same state again says nothing. |
| `WorldViews.TileEventsReplay` | clientcore/src/worldview.cpp:90-125 | Removals and redraws alone turn the old fields into the new. |
| `WorldViews.BeingEventsReplay` | clientcore/src/worldview.cpp:132-181 | Appearances, moves, turns and vanishings alone turn the old creatures into the new. |
| `WorldViews.CurrentIsMirror` | clientcore/src/worldview.cpp:91-96 | The collected tiles are the stacks of a well-formed mirror. |
| `Framing.FrameDecoder.Feed` | clientcore/src/framing.cpp:39-105 | However a stream is cut, each piece yields what the one-shot parser says of buffer and piece: frames, error, buffer, consumed and unconsumed bytes; errors stick. |
| `Framing.FrameDecoder.Finish` | clientcore/src/framing.cpp:111-126 | A stream ends well exactly when nothing is buffered. |
| `Framing.FrameDecoder.Reset` | clientcore/src/framing.cpp:128-133 | Starts over. |
| `Framing.EncodeFrame` | clientcore/src/framing.cpp:135-166 | Which payloads are refused and why, and the exact bytes of the others. |
| `Framing.ChunkingDoesNotMatter` | clientcore/src/framing.cpp:39-105 | For every stream and every way of cutting it: frames, sticky error, final buffer and consumed bytes are those of one parse, and consumed bytes are the frames with headers plus the buffer. |
| `Framing.ParseResumes` | clientcore/src/framing.cpp:39-105 | Parsing can stop anywhere and go on with what was buffered. |
| `Framing.ParseConserves` | clientcore/src/framing.cpp:39-105 | No byte is lost or invented. |
| `Framing.CleanStreams` | clientcore/src/framing.cpp:39-126 | A stream ends cleanly if and only if it is a list of frames. |
| `Framing.FeedingUndoesFraming` | clientcore/src/framing.cpp:39-166 | Feeding framed payloads, cut anywhere, gives the payloads back. |
| `Xtea.DecryptionInvertsEncryption` | clientcore/src/crypto.cpp:185-239 | For every key and every buffer of whole blocks each direction undoes the other. |
| `Xtea.UnroundsUndoRounds` | clientcore/src/crypto.cpp:197-234 | The rounds of decryption undo those of encryption, by induction over the rounds. |
| `Xtea.FinalSum` | clientcore/src/crypto.cpp:227 | The running sum of thirty-two rounds is the constant decryption starts from. |
| `Xtea.RunRounds` | clientcore/src/crypto.cpp:197-206 | The encryption loop computes the rounds. |
| `Xtea.RunUnrounds` | clientcore/src/crypto.cpp:227-234 | The decryption loop computes their inverse. |
| `Xtea.XteaKey.EncryptBlocks` | clientcore/src/crypto.cpp:185-211 | In place, block by block, or an error that changes nothing. |
| `Xtea.XteaKey.DecryptBlocks` | clientcore/src/crypto.cpp:213-239 | In place, block by block, or an error that changes nothing. |
| `Xtea.EncryptedSize` | clientcore/src/crypto.cpp:335-337 | Rounds up to whole blocks with less than a block of padding. |
| `Xtea.EncryptXteaPayload` | clientcore/src/crypto.cpp:307-373 | Which error in which case; otherwise the encryption of length, message and less than eight bytes of whatever the generator delivers. |
| `Xtea.DecryptXteaPayload` | clientcore/src/crypto.cpp:388-431 | Which error in which case; otherwise message and padding. |
| `Xtea.OpenUndoesSeal` | clientcore/src/crypto.cpp:307-431 | Decrypting an encrypted payload returns message and padding, for every key and every padding. |
| `Xtea.NothingDoesNotOpen` | clientcore/src/crypto.cpp:410-414 | An empty message is refused, whatever the key and the padding. |
| `Xtea.SealUndoesOpen` | clientcore/src/crypto.cpp:388-431 | Only encryptions open: a payload that decrypts is the encryption of what it decrypts to. |
| `ServerOutput.TConnection.BeginSendData` | reference/game/src/sending.cc:35-49 | Starts a command on a connection that is live and past its login, unless the ring is full of committed bytes; an abandoned command is forgotten. |
| `ServerOutput.TConnection.FinishSendData` | reference/game/src/sending.cc:51-73 | Commits all of a command and notes that there is something to send, or does neither after an overflow or on a dead connection. |
| `ServerOutput.TConnection.SendByte` | reference/game/src/sending.cc:75-85 | Appends across the wrap or marks the overflow; committed bytes are untouched. |
| `ServerOutput.TConnection.SendWord` | reference/game/src/sending.cc:87-98 | The same for two bytes. |
| `ServerOutput.TConnection.SendBytes` | reference/game/src/sending.cc:117-147 | The same for a run of bytes copied in one or two parts. |
| `ServerOutput.TConnection.SendData` | reference/game/src/communication.cc:373-403 | The packet is that of the committed bytes, copied across the wrap; on success they are sent and gone, on failure a proper prefix went out and they stay. |
| `ServerOutput.TConnection.WriteToSocket` | reference/game/src/communication.cc:262-327 | Length, encrypted inner length, data and less than eight bytes of padding, whatever partial writes the system makes. |
| `ServerOutput.TConnection.Pad` | reference/game/src/communication.cc:277-286 | The padding loop ends at exactly the packet size. |
| `ServerOutput.TConnection.Transmit` | reference/game/src/communication.cc:297-323 | Through partial writes, interruptions and blocking, all bytes go out in order or a proper prefix does. |
| `ServerOutput.PacketSize` | reference/game/src/communication.cc:250-260 | Whole blocks behind a two-byte length, less than eight bytes more than needed. |
| `ServerOutput.WritingKeepsHeld` | reference/game/src/sending.cc:117-147 | Writing within one lap leaves the bytes held alone and reads back as written. |
| `Delivery.SendCommand` | reference/game/src/sending.cc:35-147 | A whole command on the ring is committed exactly when it fits, and otherwise leaves no trace. |
| `Delivery.NothingIsTorn` | reference/game/src/sending.cc:17-147 | In every interleaving of building and sending: each packet is a list of whole commands, one that overflowed is in none, every other one is in exactly one packet or still waits, all in order. |
| `Delivery.ClientReceivesSlices` | reference/game/src/communication.cc:373-403 | However the packets are cut on the way, the client's decoder and cipher give back the slices that were sent, within its frame limit; only an empty packet is refused. |
| `Delivery.EmptyPacketsExactly` | reference/game/src/sending.cc:17-33 | In every interleaving no packet is empty if and only if the sender never gathers when nothing is committed, the test its signal handler does not make. |
| `Delivery.SecondWakeUpSendsNothing` | reference/game/src/communication.cc:1405-1410 | It can happen: one command and two wake-ups put a packet with the command on the way and then one with nothing. |
| `WholeWay.EveryPacketKeepsMirror` | reference/game/src/communication.cc:373-403 | From one thread to the mirror: whatever the interleaving, the padding and the cuts in transit, the client takes every packet if and only if none is empty, and then has read each to its end and mirrors the world as it is after the last delivered command. |
| `WholeWay.NeverIdleIsEnough` | reference/game/src/communication.cc:1405-1410 | It takes every packet if the sender never gathers when nothing is committed. |
| `WholeWay.SecondWakeUpIsRefused` | clientcore/src/crypto.cpp:410-414 | A ping and two wake-ups, for any key, padding and cuts: the client refuses what it receives. |
| `WholeWay.PacketsKeepMirror` | clientcore/src/movement.cpp:496-995 | Packet after packet, each walked from where the last one left the viewport, the mirror is that of a moment of the run. |
| `WaitingQueues.Queue.GetEntry` | reference/game/src/communication.cc:414-433 | Finds a player whatever the case of the name. |
| `WaitingQueues.Queue.Insert` | reference/game/src/communication.cc:435-472 | Updates a known player in place or appends a new one; the chain stays acyclic and names distinct. |
| `WaitingQueues.Queue.Delete` | reference/game/src/communication.cc:474-495 | Unlinks exactly that player. |
| `WaitingQueues.Queue.GetPosition` | reference/game/src/communication.cc:497-556 | Trims the head, puts latecomers to sleep up to the player, and reports the place. |
| `WaitingList.NobodyOvertakes` | reference/game/src/communication.cc:435-556 | Over any run of operations, while an entry stays in the list the entries ahead of it only become fewer, and so do the ones awake. |
| `WaitingList.EveryRunStaysDistinct` | reference/game/src/communication.cc:435-556 | No player is ever in the list twice. |
| `WaitingList.PositionCountsAwake` | reference/game/src/communication.cc:497-556 | A reported place is at least one and at most one plus the entries ahead still awake; a newbie with a free account waits for all of them. |
| `WaitingList.PlaceNeverWorsens` | reference/game/src/communication.cc:497-556 | For such a player the place never gets worse, whatever happens in between. |
| `StackPool.Pool.Get` | reference/game/src/communication.cc:61-85 | The first free stack found eligible, one test a slot as threads exit in between, taken by swap and pop. |
| `StackPool.Pool.Release` | reference/game/src/communication.cc:91-96 | Puts a stack back. |
| `StackPool.PoolIsSafe` | reference/game/src/communication.cc:61-96 | In every interleaving of acceptor and connection threads, exits during a search included, each stack is free once or held by exactly one party, no two living threads run on one stack, and the count is within the stacks not free. |
| `StackPool.EveryInterleavingKeeps` | reference/game/src/communication.cc:1447-1590 | Every step of every thread keeps those books. |
| `StackPool.CountWithinPool` | reference/game/src/communication.cc:1297-1307 | The active connections never exceed the stacks that are not free. |
| `StackPool.ReleaseHasRoom` | reference/game/src/communication.cc:91-96 | Whoever releases a stack finds room in the array. |
| `StackPool.LimitHolds` | reference/game/src/communication.cc:1572-1590 | Without own stacks, from the start, the limit holds in every interleaving although test and increment are not atomic. |
| `Ledger.MovementLedger.NoteRequestSent` | clientcore/src/movement_ledger.cpp:15-35 | Issues the next id and queues the request. |
| `Ledger.MovementLedger.NoteLocalMove` | clientcore/src/movement_ledger.cpp:37-78 | A move is claimed exactly when it is the step the oldest request asked for; anything else consumes nothing. |
| `Ledger.MovementLedger.NoteSnapback` | clientcore/src/movement_ledger.cpp:80-91 | A refusal answers the oldest request, if any. |
| `Ledger.MovementLedger.ExpireBefore` | clientcore/src/movement_ledger.cpp:93-101 | Exactly the leading requests older than the deadline are dropped and counted. |
| `Ledger.EveryRequestIsAccountedFor` | clientcore/src/movement_ledger.cpp:15-107 | In every run, resets included: since the last reset answers come in the order of the ids, once each; the pending ids are the last ones issued; requested is accepted plus refused plus unanswered plus pending. |
| `SectorReader.Cursor.ReadObjects` | scripts/client/build_wide_world_cache.py:50-67 | The recursive reader returns what the tokens say or raises the first error. |
| `SectorReader.Cursor.SkipAttributes` | scripts/client/build_wide_world_cache.py:55-63 | Attributes are checked and nested contents dropped. |
| `SectorReader.Cursor.ParseSector` | scripts/client/build_wide_world_cache.py:69-98 | The tile loop returns what the tokens say; every iteration uses up a token, so it ends on any input. |
| `Sector.ParsingUndoesPrinting` | scripts/client/build_wide_world_cache.py:50-98 | Parsing printed tiles yields exactly their top-level objects in order, with stack indexes and disguises, however deeply contents nest. |
| `Sector.ObjectsOfPrint` | scripts/client/build_wide_world_cache.py:50-67 | A printed list of objects parses to its own ids and stops at its brace. |
| `Sector.ParsedInSector` | scripts/client/build_wide_world_cache.py:69-98 | For arbitrary tokens: every row lies in its sector and shows its disguise. |

## Left out

- Commands.Decode: the offset and text that accompany an error are not modelled, only which error it is.
- Payload.ApplyPayload: the events the consumer publishes and its statistics are left out.
- EndToEnd.BytesKeepMirror: a command the client has no length for, such as those of the request queue, ends the walk, as in the code, so a payload that holds one is not mirrored past it.
- Decoders.ReadChannelChange: the mark of the row that offers an own channel, and whether a list to edit is of a known type, follow from the number next to them and are not stored.
- Disguise.RealBytesKeepMirror: that the shipped type table has no disguise that changes a priority or a flag is a fact about data and not part of the model.
- Presence.EveryLoginIsPlaced: a command dropped for lack of room has changed the table all the same; commands that are dropped are not part of the run. The chain that leads from a creature to its slots is the search for the slot that names it, and of the creature only its position is modelled.
- Floors.SortFloorsSorts: the standard library's sort is a function here, known only by the order it gives.
- Viewport.ViewportFloorRange: the widths and offsets of the terminal are the constants of the headers, not parameters.
- ObjectTypes.ObjectTypeTable.Declare: reading the type table from its text file is not modelled; types are a parameter.
- Minimap.KnownMinimap.Load: a sign before a number, or digits running into other characters, which formatted extraction would partly accept, is refused here.
- MinimapFile.LoadUndoesSave: numbers are unsigned decimal words, as Save writes them.
- Minimap.KnownMinimap.FindPath: the priority queue is a set from which the preferred entry is taken; no entry is ever pushed twice, which is proved.
- Minimap.KnownMinimap.Observe: projecting the current floor of the mirror into cells is not modelled; any list of cells is taken.
- WorldViews.WorldView.Diff: the walk over ordered maps is the walk over their sorted keys.
- Framing.FrameDecoder.Feed: null pointers with a size are not representable.
- Xtea.EncryptXteaPayload: random bytes are any bytes the generator delivers; clearing secrets from memory, key generation and the RSA half of the file are left out.
- ServerOutput.TConnection.SendData: the socket is a script of write outcomes; delays and load accounting are left out.
- Delivery.NothingIsTorn: one step of one thread is atomic, as the source's single writer and single sender make it.
- ServerOutput.TConnection.FinishSendData: the list of connections that are willing to send and the signal that wakes their threads are left out.
- WholeWay.EveryPacketKeepsMirror: commands that overflowed are not part of the run the mirror follows; a dropped command is not sent again.
- WaitingQueues.Queue.Insert: the free list that entries come from is not modelled, a new entry is a new object; 32-bit wrap-around of round numbers and the length limit of names are left out.
- WaitingList.PositionCountsAwake: letters outside the plain alphabet are compared as they are.
- StackPool.PoolIsSafe: a thread number belongs to at most one living thread; signals to the threads and the contents of the stacks are left out.
- Ledger.MovementLedger.ExpireBefore: times are real numbers; 32-bit wrap-around of ids and counters is left out.
- Sector.ParsingUndoesPrinting: the regular expression that makes tokens of text is not modelled, the input is the token list; printing uses one canonical form in which flags come before the content.
- Sockets, RSA and login requests, the Unreal and Win32 front ends, catalogues and evidence scripts, name tables and one-line command builders: input and output, foreign calls, or members without a property.
