/** Commands are self-delimiting: on a longer payload every reader gives the same answer,
    unless it ran off the end. */
module Streams {
  import opened World
  import opened Viewport
  import opened ObjectTypes
  import opened Updates
  import opened MapScan
  import opened Commands

  /** The reading `shorter`, taken from a prefix, is either cut off or the same as `longer`. */
  ghost predicate Stable<T>(shorter: Parse<T>, longer: Parse<T>) {
    shorter == Fail(Truncated) || shorter == longer
  }

  /** A reading that succeeds stays inside the payload and does not go back. */
  ghost predicate Bounded<T>(parse: Parse<T>, s: seq<byte>, at: nat) {
    parse.Ok? ==> at <= parse.at && (parse.at <= |s| || parse.at == at)
  }

  lemma RawStable(s: seq<byte>, t: seq<byte>, at: nat, count: nat)
    requires s <= t
    ensures Stable(Raw(s, at, count), Raw(t, at, count)) && Bounded(Raw(s, at, count), s, at)
  {
    if at + count <= |s| { assert s[at..at + count] == t[at..at + count]; }
  }

  lemma U8Stable(s: seq<byte>, t: seq<byte>, at: nat)
    requires s <= t
    ensures Stable(U8(s, at), U8(t, at)) && Bounded(U8(s, at), s, at)
  {
  }

  lemma U16Stable(s: seq<byte>, t: seq<byte>, at: nat)
    requires s <= t
    ensures Stable(U16(s, at), U16(t, at)) && Bounded(U16(s, at), s, at)
  {
  }

  lemma U32Stable(s: seq<byte>, t: seq<byte>, at: nat)
    requires s <= t
    ensures Stable(U32(s, at), U32(t, at)) && Bounded(U32(s, at), s, at)
  {
  }

  lemma TextStable(s: seq<byte>, t: seq<byte>, at: nat)
    requires s <= t
    ensures Stable(Text(s, at), Text(t, at)) && Bounded(Text(s, at), s, at)
    ensures Stable(CreatureName(s, at), CreatureName(t, at)) && Bounded(CreatureName(s, at), s, at)
  {
    hide U16, Raw;
    U16Stable(s, t, at);
    if U16(s, at).Ok? { RawStable(s, t, U16(s, at).at, U16(s, at).value); }
  }

  lemma ReadOutfitStable(s: seq<byte>, t: seq<byte>, at: nat)
    requires s <= t
    ensures Stable(ReadOutfit(s, at), ReadOutfit(t, at)) && Bounded(ReadOutfit(s, at), s, at)
  {
    hide U16, Raw;
    U16Stable(s, t, at);
    if U16(s, at).Ok? {
      U16Stable(s, t, U16(s, at).at);
      RawStable(s, t, U16(s, at).at, 4);
    }
  }

  lemma ReadDescriptorStable(s: seq<byte>, t: seq<byte>, at: nat)
    requires s <= t
    ensures Stable(ReadDescriptor(s, at), ReadDescriptor(t, at)) && Bounded(ReadDescriptor(s, at), s, at)
  {
    hide U8, U16, ReadOutfit;
    U8Stable(s, t, at);
    if U8(s, at).Ok? {
      var at1 := U8(s, at).at;
      U8Stable(s, t, at1);
      if U8(s, at1).Ok? {
        var at2 := U8(s, at1).at;
        ReadOutfitStable(s, t, at2);
        if ReadOutfit(s, at2).Ok? {
          var at3 := ReadOutfit(s, at2).at;
          U8Stable(s, t, at3);
          if U8(s, at3).Ok? {
            var at4 := U8(s, at3).at;
            U8Stable(s, t, at4);
            if U8(s, at4).Ok? {
              var at5 := U8(s, at4).at;
              U16Stable(s, t, at5);
              if U16(s, at5).Ok? {
                var at6 := U16(s, at5).at;
                U8Stable(s, t, at6);
                if U8(s, at6).Ok? {
                  var at7 := U8(s, at6).at;
                  U8Stable(s, t, at7);
                }
              }
            }
          }
        }
      }
    }
  }

  lemma OptionalByteStable(s: seq<byte>, t: seq<byte>, at: nat, present: bool)
    requires s <= t
    ensures Stable(OptionalByte(s, at, present), OptionalByte(t, at, present))
    ensures Bounded(OptionalByte(s, at, present), s, at)
  {
  }

  lemma ItemBodyStable(s: seq<byte>, t: seq<byte>, at: nat, typeId: word, types: Types)
    requires s <= t
    ensures Stable(ItemBody(s, at, typeId, types), ItemBody(t, at, typeId, types))
    ensures Bounded(ItemBody(s, at, typeId, types), s, at)
  {
    hide OptionalByte;
    var encoding := Lookup(types, typeId);
    OptionalByteStable(s, t, at, encoding.liquidColor);
    if OptionalByte(s, at, encoding.liquidColor).Ok? {
      OptionalByteStable(s, t, OptionalByte(s, at, encoding.liquidColor).at, encoding.cumulative);
    }
  }

  lemma ReadItemStable(s: seq<byte>, t: seq<byte>, at: nat, types: Types)
    requires s <= t
    ensures Stable(ReadItem(s, at, types), ReadItem(t, at, types)) && Bounded(ReadItem(s, at, types), s, at)
  {
    hide U16, ItemBody;
    U16Stable(s, t, at);
    if U16(s, at).Ok? { ItemBodyStable(s, t, U16(s, at).at, U16(s, at).value, types); }
  }

  lemma ReadKnownStable(s: seq<byte>, t: seq<byte>, at: nat)
    requires s <= t
    ensures Stable(ReadKnown(s, at), ReadKnown(t, at)) && Bounded(ReadKnown(s, at), s, at)
  {
    hide U8, U32;
    U32Stable(s, t, at);
    if U32(s, at).Ok? {
      var at1 := U32(s, at).at;
      U8Stable(s, t, at1);
    }
  }

  lemma ReadOutdatedStable(s: seq<byte>, t: seq<byte>, at: nat)
    requires s <= t
    ensures Stable(ReadOutdated(s, at), ReadOutdated(t, at)) && Bounded(ReadOutdated(s, at), s, at)
  {
    hide U32, ReadDescriptor;
    U32Stable(s, t, at);
    if U32(s, at).Ok? {
      var at1 := U32(s, at).at;
      ReadDescriptorStable(s, t, at1);
    }
  }

  lemma CreatureNameStable(s: seq<byte>, t: seq<byte>, at: nat)
    requires s <= t
    ensures Stable(CreatureName(s, at), CreatureName(t, at)) && Bounded(CreatureName(s, at), s, at)
  {
    hide CreatureName;
    TextStable(s, t, at);
  }

  lemma ReadIntroducedStable(s: seq<byte>, t: seq<byte>, at: nat)
    requires s <= t
    ensures Stable(ReadIntroduced(s, at), ReadIntroduced(t, at)) && Bounded(ReadIntroduced(s, at), s, at)
  {
    hide U32, CreatureName, ReadDescriptor;
    U32Stable(s, t, at);
    if U32(s, at).Ok? {
      var at1 := U32(s, at).at;
      U32Stable(s, t, at1);
      if U32(s, at1).Ok? {
        var at2 := U32(s, at1).at;
        CreatureNameStable(s, t, at2);
        if CreatureName(s, at2).Ok? {
          var at3 := CreatureName(s, at2).at;
          ReadDescriptorStable(s, t, at3);
        }
      }
    }
  }

  lemma ReadThingStable(s: seq<byte>, t: seq<byte>, at: nat, types: Types)
    requires s <= t
    ensures Stable(ReadThing(s, at, types), ReadThing(t, at, types)) && Bounded(ReadThing(s, at, types), s, at)
    ensures ReadThing(s, at, types).Ok? ==> at < ReadThing(s, at, types).at <= |s|
  {
    hide ReadKnown, ReadOutdated, ReadIntroduced, ItemBody;
    U16Stable(s, t, at);
    if U16(s, at).Ok? {
      var at1 := U16(s, at).at;
      ReadKnownStable(s, t, at1);
      ReadOutdatedStable(s, t, at1);
      ReadIntroducedStable(s, t, at1);
      ItemBodyStable(s, t, at1, U16(s, at).value, types);
    }
  }

  lemma ReadPositionStable(s: seq<byte>, t: seq<byte>, at: nat)
    requires s <= t
    ensures Stable(ReadPosition(s, at), ReadPosition(t, at)) && Bounded(ReadPosition(s, at), s, at)
  {
    hide U8, U16;
    U16Stable(s, t, at);
    if U16(s, at).Ok? {
      var at1 := U16(s, at).at;
      U16Stable(s, t, at1);
      if U16(s, at1).Ok? {
        var at2 := U16(s, at1).at;
        U8Stable(s, t, at2);
      }
    }
  }

  lemma {:induction false} ReadTileStable(s: seq<byte>, t: seq<byte>, at: nat, types: Types, things: seq<MapThing>)
    requires s <= t
    ensures Stable(ReadTile(s, at, types, things), ReadTile(t, at, types, things))
    ensures Bounded(ReadTile(s, at, types, things), s, at)
    decreases MAX_OBJECTS_PER_POINT + 1 - |things|
  {
    hide U16, ReadThing;
    U16Stable(s, t, at);
    if U16(s, at).Ok? && U16(s, at).value < SKIP_MARKER_BASE && |things| < MAX_OBJECTS_PER_POINT {
      ReadThingStable(s, t, at, types);
      if ReadThing(s, at, types).Ok? {
        ReadTileStable(s, t, ReadThing(s, at, types).at, types, things + [ReadThing(s, at, types).value]);
      }
    }
  }

  lemma {:induction false} ScanStable(
      s: seq<byte>, t: seq<byte>, at: nat, types: Types, ps: seq<MapPosition>, state: ScanState)
    requires s <= t
    ensures Stable(Scan(s, at, types, ps, state), Scan(t, at, types, ps, state))
    ensures Bounded(Scan(s, at, types, ps, state), s, at)
    decreases |ps|
  {
    hide U16, ReadTile;
    if ps != [] {
      if state.skip > 0 {
        ScanStable(s, t, at, types, ps[1..], state.(skip := state.skip - 1));
      } else {
        U16Stable(s, t, at);
        ReadTileStable(s, t, at, types, []);
        if U16(s, at).Ok? {
          if U16(s, at).value >= SKIP_MARKER_BASE {
            ScanStable(s, t, U16(s, at).at, types, ps[1..], state.(skip := U16(s, at).value - SKIP_MARKER_BASE));
          } else if ReadTile(s, at, types, []).Ok? {
            var tile := ReadTile(s, at, types, []);
            ScanStable(s, t, tile.at, types, ps[1..],
              ScanState(tile.value.skip, state.tiles + [MapTile(ps[0], tile.value.things)]));
          }
        }
      }
    }
  }

  lemma {:induction false} ScanFloorsStable(
      s: seq<byte>, t: seq<byte>, at: nat, types: Types, anchor: MapPosition, rect: Rect, zs: seq<int>,
      state: FloorsState)
    requires s <= t
    ensures Stable(ScanFloors(s, at, types, anchor, rect, zs, state), ScanFloors(t, at, types, anchor, rect, zs, state))
    ensures Bounded(ScanFloors(s, at, types, anchor, rect, zs, state), s, at)
    decreases |zs|
  {
    hide Scan, RectOn;
    if zs != [] {
      var ps := RectOn(anchor, rect, zs[0]);
      var start := ScanState(state.skip, []);
      ScanStable(s, t, at, types, ps, start);
      var scanned := Scan(s, at, types, ps, start);
      if scanned.Ok? {
        ScanFloorsStable(s, t, scanned.at, types, anchor, rect, zs[1..],
          FloorsState(scanned.value.skip, state.floors + [MapFloor(zs[0], anchor.z - zs[0], scanned.value.tiles)]));
      }
    }
  }

  lemma ReadFloorsStable(
      s: seq<byte>, t: seq<byte>, at: nat, types: Types, anchor: MapPosition, rect: Rect, zs: seq<int>)
    requires s <= t
    ensures Stable(ReadFloors(s, at, types, anchor, rect, zs), ReadFloors(t, at, types, anchor, rect, zs))
    ensures Bounded(ReadFloors(s, at, types, anchor, rect, zs), s, at)
  {
    hide ScanFloors;
    ScanFloorsStable(s, t, at, types, anchor, rect, zs, FloorsState(0, []));
  }

  // ---- commands -----------------------------------------------------------------------------

  lemma DecodeMovingStable(s: seq<byte>, t: seq<byte>, at: nat, anchor: MapPosition, opcode: byte, types: Types)
    requires s <= t && Moves(opcode)
    ensures Stable(DecodeMoving(s, at, anchor, opcode, types), DecodeMoving(t, at, anchor, opcode, types))
    ensures Bounded(DecodeMoving(s, at, anchor, opcode, types), s, at)
  {
    hide ReadFloors, ReadPosition, FloorsOf, ViewportFloorRange, FloorChangeRange, RowRectangle, FullRectangle;
    if opcode == 100 {
      ReadPositionStable(s, t, at);
      if ReadPosition(s, at).Ok? {
        var player := ReadPosition(s, at).value;
        PositionFloor(s, at);
        ReadFloorsStable(s, t, ReadPosition(s, at).at, types, player, FullRectangle(player),
          FloorsOf(ViewportFloorRange(player.z)));
      }
    } else if opcode <= 104 {
      var direction := if opcode == 101 then North else if opcode == 102 then East else if opcode == 103 then South
        else West;
      var next := StepPosition(anchor, direction);
      if ValidAnchor(next) {
        ReadFloorsStable(s, t, at, types, next, RowRectangle(next, direction), FloorsOf(ViewportFloorRange(next.z)));
      }
    } else {
      var next := FloorStep(anchor, opcode == 190);
      if ValidAnchor(next) {
        ReadFloorsStable(s, t, at, types, next, FullRectangle(next), FloorsOf(FloorChangeRange(next.z, opcode == 190)));
      }
    }
  }

  lemma DecodeFieldDataStable(s: seq<byte>, t: seq<byte>, at: nat, types: Types)
    requires s <= t
    ensures Stable(DecodeFieldData(s, at, types), DecodeFieldData(t, at, types))
    ensures Bounded(DecodeFieldData(s, at, types), s, at)
  {
    hide ReadPosition, Scan;
    ReadPositionStable(s, t, at);
    if ReadPosition(s, at).Ok? {
      ScanStable(s, t, ReadPosition(s, at).at, types, [ReadPosition(s, at).value], ScanState(0, []));
    }
  }

  lemma ReadStackIndexStable(s: seq<byte>, t: seq<byte>, at: nat)
    requires s <= t
    ensures Stable(ReadStackIndex(s, at), ReadStackIndex(t, at)) && Bounded(ReadStackIndex(s, at), s, at)
  {
    hide U8;
    U8Stable(s, t, at);
  }

  lemma DecodeAddFieldStable(s: seq<byte>, t: seq<byte>, at: nat, types: Types)
    requires s <= t
    ensures Stable(DecodeAddField(s, at, types), DecodeAddField(t, at, types))
    ensures Bounded(DecodeAddField(s, at, types), s, at)
  {
    hide ReadPosition, ReadThing;
    ReadPositionStable(s, t, at);
    if ReadPosition(s, at).Ok? {
      var at1 := ReadPosition(s, at).at;
      ReadThingStable(s, t, at1, types);
    }
  }

  lemma DecodeChangeFieldStable(s: seq<byte>, t: seq<byte>, at: nat, types: Types)
    requires s <= t
    ensures Stable(DecodeChangeField(s, at, types), DecodeChangeField(t, at, types))
    ensures Bounded(DecodeChangeField(s, at, types), s, at)
  {
    hide ReadPosition, ReadStackIndex, ReadThing;
    ReadPositionStable(s, t, at);
    if ReadPosition(s, at).Ok? {
      var at1 := ReadPosition(s, at).at;
      ReadStackIndexStable(s, t, at1);
      if ReadStackIndex(s, at1).Ok? {
        var at2 := ReadStackIndex(s, at1).at;
        ReadThingStable(s, t, at2, types);
      }
    }
  }

  lemma DecodeDeleteFieldStable(s: seq<byte>, t: seq<byte>, at: nat)
    requires s <= t
    ensures Stable(DecodeDeleteField(s, at), DecodeDeleteField(t, at)) && Bounded(DecodeDeleteField(s, at), s, at)
  {
    hide ReadPosition, ReadStackIndex;
    ReadPositionStable(s, t, at);
    if ReadPosition(s, at).Ok? {
      var at1 := ReadPosition(s, at).at;
      ReadStackIndexStable(s, t, at1);
    }
  }

  lemma DecodeMoveCreatureStable(s: seq<byte>, t: seq<byte>, at: nat)
    requires s <= t
    ensures Stable(DecodeMoveCreature(s, at), DecodeMoveCreature(t, at)) && Bounded(DecodeMoveCreature(s, at), s, at)
  {
    hide ReadPosition, ReadStackIndex;
    ReadPositionStable(s, t, at);
    if ReadPosition(s, at).Ok? {
      var at1 := ReadPosition(s, at).at;
      ReadStackIndexStable(s, t, at1);
      if ReadStackIndex(s, at1).Ok? {
        var at2 := ReadStackIndex(s, at1).at;
        ReadPositionStable(s, t, at2);
      }
    }
  }

  lemma ReadTalkTailStable(s: seq<byte>, t: seq<byte>, at: nat, mode: byte)
    requires s <= t
    ensures Stable(ReadTalkTail(s, at, mode), ReadTalkTail(t, at, mode)) && Bounded(ReadTalkTail(s, at, mode), s, at)
  {
    hide U8, U16, U32;
    U32Stable(s, t, at);
    U16Stable(s, t, at);
    if U16(s, at).Ok? {
      var at1 := U16(s, at).at;
      U16Stable(s, t, at1);
      if U16(s, at1).Ok? { U8Stable(s, t, U16(s, at1).at); }
    }
  }

  lemma DecodeTalkStable(s: seq<byte>, t: seq<byte>, at: nat)
    requires s <= t
    ensures Stable(DecodeTalk(s, at), DecodeTalk(t, at)) && Bounded(DecodeTalk(s, at), s, at)
  {
    hide U8, U32, Text, ReadTalkTail;
    U32Stable(s, t, at);
    if U32(s, at).Ok? {
      var at1 := U32(s, at).at;
      TextStable(s, t, at1);
      if Text(s, at1).Ok? {
        var at2 := Text(s, at1).at;
        U8Stable(s, t, at2);
        if U8(s, at2).Ok? {
          var mode := U8(s, at2).value;
          var at3 := U8(s, at2).at;
          ReadTalkTailStable(s, t, at3, mode);
          if ReadTalkTail(s, at3, mode).Ok? { TextStable(s, t, ReadTalkTail(s, at3, mode).at); }
        }
      }
    }
  }

  lemma DecodeMessageStable(s: seq<byte>, t: seq<byte>, at: nat)
    requires s <= t
    ensures Stable(DecodeMessage(s, at), DecodeMessage(t, at)) && Bounded(DecodeMessage(s, at), s, at)
  {
    hide U8, Text;
    U8Stable(s, t, at);
    if U8(s, at).Ok? {
      var at1 := U8(s, at).at;
      TextStable(s, t, at1);
    }
  }

  lemma DecodeSnapbackStable(s: seq<byte>, t: seq<byte>, at: nat)
    requires s <= t
    ensures Stable(DecodeSnapback(s, at), DecodeSnapback(t, at)) && Bounded(DecodeSnapback(s, at), s, at)
  {
    hide U8;
    U8Stable(s, t, at);
  }

  lemma DecodeAmbientStable(s: seq<byte>, t: seq<byte>, at: nat)
    requires s <= t
    ensures Stable(DecodeAmbient(s, at), DecodeAmbient(t, at)) && Bounded(DecodeAmbient(s, at), s, at)
  {
    hide U8;
    U8Stable(s, t, at);
    if U8(s, at).Ok? {
      var at1 := U8(s, at).at;
      U8Stable(s, t, at1);
    }
  }

  lemma DecodeGraphicalEffectStable(s: seq<byte>, t: seq<byte>, at: nat)
    requires s <= t
    ensures Stable(DecodeGraphicalEffect(s, at), DecodeGraphicalEffect(t, at))
    ensures Bounded(DecodeGraphicalEffect(s, at), s, at)
  {
    hide ReadPosition, U8;
    ReadPositionStable(s, t, at);
    if ReadPosition(s, at).Ok? {
      var at1 := ReadPosition(s, at).at;
      U8Stable(s, t, at1);
    }
  }

  lemma DecodeTextualEffectStable(s: seq<byte>, t: seq<byte>, at: nat)
    requires s <= t
    ensures Stable(DecodeTextualEffect(s, at), DecodeTextualEffect(t, at)) && Bounded(DecodeTextualEffect(s, at), s, at)
  {
    hide ReadPosition, U8, Text;
    ReadPositionStable(s, t, at);
    if ReadPosition(s, at).Ok? {
      var at1 := ReadPosition(s, at).at;
      U8Stable(s, t, at1);
      if U8(s, at1).Ok? {
        var at2 := U8(s, at1).at;
        TextStable(s, t, at2);
      }
    }
  }

  lemma DecodeMissileEffectStable(s: seq<byte>, t: seq<byte>, at: nat)
    requires s <= t
    ensures Stable(DecodeMissileEffect(s, at), DecodeMissileEffect(t, at)) && Bounded(DecodeMissileEffect(s, at), s, at)
  {
    hide ReadPosition, U8;
    ReadPositionStable(s, t, at);
    if ReadPosition(s, at).Ok? {
      var at1 := ReadPosition(s, at).at;
      ReadPositionStable(s, t, at1);
      if ReadPosition(s, at1).Ok? {
        var at2 := ReadPosition(s, at1).at;
        U8Stable(s, t, at2);
      }
    }
  }

  lemma DecodeMarkCreatureStable(s: seq<byte>, t: seq<byte>, at: nat)
    requires s <= t
    ensures Stable(DecodeMarkCreature(s, at), DecodeMarkCreature(t, at)) && Bounded(DecodeMarkCreature(s, at), s, at)
  {
    hide U32, U8;
    U32Stable(s, t, at);
    if U32(s, at).Ok? {
      var at1 := U32(s, at).at;
      U8Stable(s, t, at1);
    }
  }

  lemma ReadAttributeStable(s: seq<byte>, t: seq<byte>, at: nat, opcode: byte)
    requires s <= t
    ensures Stable(ReadAttribute(s, at, opcode), ReadAttribute(t, at, opcode))
    ensures Bounded(ReadAttribute(s, at, opcode), s, at)
  {
    hide U8, U16, ReadOutfit;
    ReadOutfitStable(s, t, at);
    U16Stable(s, t, at);
    U8Stable(s, t, at);
    if U8(s, at).Ok? { U8Stable(s, t, U8(s, at).at); }
  }

  lemma DecodeCreatureAttributeStable(s: seq<byte>, t: seq<byte>, at: nat, opcode: byte)
    requires s <= t
    ensures Stable(DecodeCreatureAttribute(s, at, opcode), DecodeCreatureAttribute(t, at, opcode))
    ensures Bounded(DecodeCreatureAttribute(s, at, opcode), s, at)
  {
    hide U32, ReadAttribute;
    U32Stable(s, t, at);
    if U32(s, at).Ok? {
      var at1 := U32(s, at).at;
      ReadAttributeStable(s, t, at1, opcode);
    }
  }

  lemma ReadStatsStable(s: seq<byte>, t: seq<byte>, at: nat)
    requires s <= t
    ensures Stable(ReadStats(s, at), ReadStats(t, at))
    ensures Bounded(ReadStats(s, at), s, at)
  {
    hide U8, U16, U32;
    U16Stable(s, t, at);
    if U16(s, at).Ok? {
      var at1 := U16(s, at).at;
      U16Stable(s, t, at1);
      if U16(s, at1).Ok? {
        var at2 := U16(s, at1).at;
        U16Stable(s, t, at2);
        if U16(s, at2).Ok? {
          var at3 := U16(s, at2).at;
          U32Stable(s, t, at3);
          if U32(s, at3).Ok? {
            var at4 := U32(s, at3).at;
            U16Stable(s, t, at4);
            if U16(s, at4).Ok? {
              var at5 := U16(s, at4).at;
              U8Stable(s, t, at5);
              if U8(s, at5).Ok? {
                var at6 := U8(s, at5).at;
                U16Stable(s, t, at6);
                if U16(s, at6).Ok? {
                  var at7 := U16(s, at6).at;
                  U16Stable(s, t, at7);
                  if U16(s, at7).Ok? {
                    var at8 := U16(s, at7).at;
                    U8Stable(s, t, at8);
                    if U8(s, at8).Ok? {
                      var at9 := U8(s, at8).at;
                      U8Stable(s, t, at9);
                      if U8(s, at9).Ok? {
                        var at10 := U8(s, at9).at;
                        U8Stable(s, t, at10);
                      }
                    }
                  }
                }
              }
            }
          }
        }
      }
    }
  }

  lemma DecodePlayerDataStable(s: seq<byte>, t: seq<byte>, at: nat)
    requires s <= t
    ensures Stable(DecodePlayerData(s, at), DecodePlayerData(t, at)) && Bounded(DecodePlayerData(s, at), s, at)
  {
    hide ReadStats;
    ReadStatsStable(s, t, at);
  }

  lemma ReadSkillStable(s: seq<byte>, t: seq<byte>, at: nat)
    requires s <= t
    ensures Stable(ReadSkill(s, at), ReadSkill(t, at))
    ensures Bounded(ReadSkill(s, at), s, at)
  {
    hide U8;
    U8Stable(s, t, at);
    if U8(s, at).Ok? {
      var at1 := U8(s, at).at;
      U8Stable(s, t, at1);
    }
  }

  lemma DecodePlayerSkillsStable(s: seq<byte>, t: seq<byte>, at: nat)
    requires s <= t
    ensures Stable(DecodePlayerSkills(s, at), DecodePlayerSkills(t, at))
    ensures Bounded(DecodePlayerSkills(s, at), s, at)
  {
    hide ReadSkill;
    ReadSkillStable(s, t, at);
    if ReadSkill(s, at).Ok? {
      var at1 := ReadSkill(s, at).at;
      ReadSkillStable(s, t, at1);
      if ReadSkill(s, at1).Ok? {
        var at2 := ReadSkill(s, at1).at;
        ReadSkillStable(s, t, at2);
        if ReadSkill(s, at2).Ok? {
          var at3 := ReadSkill(s, at2).at;
          ReadSkillStable(s, t, at3);
          if ReadSkill(s, at3).Ok? {
            var at4 := ReadSkill(s, at3).at;
            ReadSkillStable(s, t, at4);
            if ReadSkill(s, at4).Ok? {
              var at5 := ReadSkill(s, at4).at;
              ReadSkillStable(s, t, at5);
              if ReadSkill(s, at5).Ok? {
                var at6 := ReadSkill(s, at5).at;
                ReadSkillStable(s, t, at6);
              }
            }
          }
        }
      }
    }
  }

  lemma DecodePlayerStateStable(s: seq<byte>, t: seq<byte>, at: nat)
    requires s <= t
    ensures Stable(DecodePlayerState(s, at), DecodePlayerState(t, at)) && Bounded(DecodePlayerState(s, at), s, at)
  {
    hide U8;
    U8Stable(s, t, at);
  }

  lemma DecodeInventoryStable(s: seq<byte>, t: seq<byte>, at: nat, cleared: bool, types: Types)
    requires s <= t
    ensures Stable(DecodeInventory(s, at, cleared, types), DecodeInventory(t, at, cleared, types))
    ensures Bounded(DecodeInventory(s, at, cleared, types), s, at)
  {
    hide U8, ReadItem;
    U8Stable(s, t, at);
    if U8(s, at).Ok? {
      var at1 := U8(s, at).at;
      ReadItemStable(s, t, at1, types);
    }
  }

  lemma {:induction false} ReadItemsStable(
      s: seq<byte>, t: seq<byte>, at: nat, count: nat, types: Types, items: seq<ItemThing>)
    requires s <= t
    ensures Stable(ReadItems(s, at, count, types, items), ReadItems(t, at, count, types, items))
    ensures Bounded(ReadItems(s, at, count, types, items), s, at)
    decreases count
  {
    hide ReadItem;
    if count > 0 {
      ReadItemStable(s, t, at, types);
      var item := ReadItem(s, at, types);
      if item.Ok? { ReadItemsStable(s, t, item.at, count - 1, types, items + [item.value]); }
    }
  }

  lemma ReadOpenedStable(s: seq<byte>, t: seq<byte>, at: nat, types: Types)
    requires s <= t
    ensures Stable(ReadOpened(s, at, types), ReadOpened(t, at, types)) && Bounded(ReadOpened(s, at, types), s, at)
  {
    hide U8, U16, Text, ReadItems;
    U16Stable(s, t, at);
    if U16(s, at).Ok? {
      var at1 := U16(s, at).at;
      TextStable(s, t, at1);
      if Text(s, at1).Ok? {
        var at2 := Text(s, at1).at;
        U8Stable(s, t, at2);
        if U8(s, at2).Ok? {
          var at3 := U8(s, at2).at;
          U8Stable(s, t, at3);
          if U8(s, at3).Ok? {
            var at4 := U8(s, at3).at;
            U8Stable(s, t, at4);
            if U8(s, at4).Ok? { ReadItemsStable(s, t, U8(s, at4).at, U8(s, at4).value, types, []); }
          }
        }
      }
    }
  }

  lemma ReadContainerSlotStable(s: seq<byte>, t: seq<byte>, at: nat)
    requires s <= t
    ensures Stable(ReadContainerSlot(s, at), ReadContainerSlot(t, at)) && Bounded(ReadContainerSlot(s, at), s, at)
  {
    hide U8;
    U8Stable(s, t, at);
  }

  lemma ReadChangeStable(s: seq<byte>, t: seq<byte>, at: nat, opcode: byte, types: Types)
    requires s <= t
    ensures Stable(ReadChange(s, at, opcode, types), ReadChange(t, at, opcode, types))
    ensures Bounded(ReadChange(s, at, opcode, types), s, at)
  {
    hide ReadItem, ReadContainerSlot, ReadOpened;
    ReadItemStable(s, t, at, types);
    ReadOpenedStable(s, t, at, types);
    ReadContainerSlotStable(s, t, at);
    if ReadContainerSlot(s, at).Ok? { ReadItemStable(s, t, ReadContainerSlot(s, at).at, types); }
  }

  lemma DecodeContainerStable(s: seq<byte>, t: seq<byte>, at: nat, opcode: byte, types: Types)
    requires s <= t
    ensures Stable(DecodeContainer(s, at, opcode, types), DecodeContainer(t, at, opcode, types))
    ensures Bounded(DecodeContainer(s, at, opcode, types), s, at)
  {
    hide U8, ReadChange;
    U8Stable(s, t, at);
    if U8(s, at).Ok? {
      var at1 := U8(s, at).at;
      ReadChangeStable(s, t, at1, opcode, types);
    }
  }

  lemma ReadOfferStable(s: seq<byte>, t: seq<byte>, at: nat, own: bool, types: Types)
    requires s <= t
    ensures Stable(ReadOffer(s, at, own, types), ReadOffer(t, at, own, types))
    ensures Bounded(ReadOffer(s, at, own, types), s, at)
  {
    hide U8, Text, ReadItems;
    TextStable(s, t, at);
    if Text(s, at).Ok? {
      var at1 := Text(s, at).at;
      U8Stable(s, t, at1);
      if U8(s, at1).Ok? {
        var at2 := U8(s, at1).at;
        ReadItemsStable(s, t, at2, U8(s, at1).value, types, []);
      }
    }
  }

  lemma DecodeTradeStable(s: seq<byte>, t: seq<byte>, at: nat, opcode: byte, types: Types)
    requires s <= t
    ensures Stable(DecodeTrade(s, at, opcode, types), DecodeTrade(t, at, opcode, types))
    ensures Bounded(DecodeTrade(s, at, opcode, types), s, at)
  {
    hide ReadOffer;
    ReadOfferStable(s, t, at, opcode == 125, types);
  }

  lemma ReadChannelEntryStable(s: seq<byte>, t: seq<byte>, at: nat)
    requires s <= t
    ensures Stable(ReadChannelEntry(s, at), ReadChannelEntry(t, at))
    ensures Bounded(ReadChannelEntry(s, at), s, at)
  {
    hide U16, Text;
    U16Stable(s, t, at);
    if U16(s, at).Ok? {
      var at1 := U16(s, at).at;
      TextStable(s, t, at1);
    }
  }

  lemma {:induction false} ReadEntriesStable(
      s: seq<byte>, t: seq<byte>, at: nat, count: nat, entries: seq<ChannelEntry>)
    requires s <= t
    ensures Stable(ReadEntries(s, at, count, entries), ReadEntries(t, at, count, entries))
    ensures Bounded(ReadEntries(s, at, count, entries), s, at)
    decreases count
  {
    hide ReadChannelEntry;
    if count > 0 {
      ReadChannelEntryStable(s, t, at);
      var entry := ReadChannelEntry(s, at);
      if entry.Ok? { ReadEntriesStable(s, t, entry.at, count - 1, entries + [entry.value]); }
    }
  }

  lemma ReadChannelChangeStable(s: seq<byte>, t: seq<byte>, at: nat, opcode: byte)
    requires s <= t
    ensures Stable(ReadChannelChange(s, at, opcode), ReadChannelChange(t, at, opcode))
    ensures Bounded(ReadChannelChange(s, at, opcode), s, at)
  {
    hide U8, U16, Text, ReadChannelEntry, ReadEntries;
    U16Stable(s, t, at);
    ReadChannelEntryStable(s, t, at);
    TextStable(s, t, at);
    U8Stable(s, t, at);
    if U8(s, at).Ok? { ReadEntriesStable(s, t, U8(s, at).at, U8(s, at).value, []); }
  }

  lemma DecodeChannelStable(s: seq<byte>, t: seq<byte>, at: nat, opcode: byte)
    requires s <= t
    ensures Stable(DecodeChannel(s, at, opcode), DecodeChannel(t, at, opcode))
    ensures Bounded(DecodeChannel(s, at, opcode), s, at)
  {
    hide ReadChannelChange;
    ReadChannelChangeStable(s, t, at, opcode);
  }

  lemma DecodeEditTextStable(s: seq<byte>, t: seq<byte>, at: nat)
    requires s <= t
    ensures Stable(DecodeEditText(s, at), DecodeEditText(t, at))
    ensures Bounded(DecodeEditText(s, at), s, at)
  {
    hide U16, U32, Text;
    U32Stable(s, t, at);
    if U32(s, at).Ok? {
      var at1 := U32(s, at).at;
      U16Stable(s, t, at1);
      if U16(s, at1).Ok? {
        var at2 := U16(s, at1).at;
        U16Stable(s, t, at2);
        if U16(s, at2).Ok? {
          var at3 := U16(s, at2).at;
          TextStable(s, t, at3);
          if Text(s, at3).Ok? {
            var at4 := Text(s, at3).at;
            TextStable(s, t, at4);
          }
        }
      }
    }
  }

  lemma DecodeEditListStable(s: seq<byte>, t: seq<byte>, at: nat)
    requires s <= t
    ensures Stable(DecodeEditList(s, at), DecodeEditList(t, at))
    ensures Bounded(DecodeEditList(s, at), s, at)
  {
    hide U8, U32, Text;
    U8Stable(s, t, at);
    if U8(s, at).Ok? {
      var at1 := U8(s, at).at;
      U32Stable(s, t, at1);
      if U32(s, at1).Ok? {
        var at2 := U32(s, at1).at;
        TextStable(s, t, at2);
      }
    }
  }

  lemma DecodeBuddyStable(s: seq<byte>, t: seq<byte>, at: nat, opcode: byte)
    requires s <= t
    ensures Stable(DecodeBuddy(s, at, opcode), DecodeBuddy(t, at, opcode)) && Bounded(DecodeBuddy(s, at, opcode), s, at)
  {
    hide U32, Text, U8;
    U32Stable(s, t, at);
    if U32(s, at).Ok? {
      var at1 := U32(s, at).at;
      TextStable(s, t, at1);
      if Text(s, at1).Ok? {
        var at2 := Text(s, at1).at;
        U8Stable(s, t, at2);
      }
    }
  }

  lemma DecodeOutfitDialogStable(s: seq<byte>, t: seq<byte>, at: nat)
    requires s <= t
    ensures Stable(DecodeOutfitDialog(s, at), DecodeOutfitDialog(t, at)) && Bounded(DecodeOutfitDialog(s, at), s, at)
  {
    hide ReadOutfit, U16;
    ReadOutfitStable(s, t, at);
    if ReadOutfit(s, at).Ok? {
      var at1 := ReadOutfit(s, at).at;
      U16Stable(s, t, at1);
      if U16(s, at1).Ok? {
        var at2 := U16(s, at1).at;
        U16Stable(s, t, at2);
      }
    }
  }

  lemma DecodeStillStable(s: seq<byte>, t: seq<byte>, at: nat, opcode: byte, types: Types)
    requires s <= t && Supported(opcode) && !Moves(opcode)
    ensures Stable(DecodeStill(s, at, opcode, types), DecodeStill(t, at, opcode, types))
    ensures Bounded(DecodeStill(s, at, opcode, types), s, at)
  {
    hide DecodeFieldData, DecodeAddField, DecodeChangeField, DecodeDeleteField, DecodeMoveCreature, DecodeSnapback,
      DecodeTalk, DecodeMessage, DecodeAmbient, DecodeGraphicalEffect, DecodeTextualEffect, DecodeMissileEffect,
      DecodeMarkCreature, DecodeCreatureAttribute, DecodePlayerState, DecodeInventory, DecodeContainer,
      DecodeOutfitDialog, DecodeBuddy, DecodePlayerData, DecodePlayerSkills, DecodeTrade, DecodeChannel, DecodeEditText,
      DecodeEditList;
    if opcode == 105 { DecodeFieldDataStable(s, t, at, types); }
    else if opcode == 106 { DecodeAddFieldStable(s, t, at, types); }
    else if opcode == 107 { DecodeChangeFieldStable(s, t, at, types); }
    else if opcode == 108 { DecodeDeleteFieldStable(s, t, at); }
    else if opcode == 109 { DecodeMoveCreatureStable(s, t, at); }
    else if opcode == 181 { DecodeSnapbackStable(s, t, at); }
    else if opcode == 170 { DecodeTalkStable(s, t, at); }
    else if opcode == 180 { DecodeMessageStable(s, t, at); }
    else if opcode == 130 { DecodeAmbientStable(s, t, at); }
    else if opcode == 131 { DecodeGraphicalEffectStable(s, t, at); }
    else if opcode == 132 { DecodeTextualEffectStable(s, t, at); }
    else if opcode == 133 { DecodeMissileEffectStable(s, t, at); }
    else if opcode == 134 { DecodeMarkCreatureStable(s, t, at); }
    else if 140 <= opcode <= 145 { DecodeCreatureAttributeStable(s, t, at, opcode); }
    else if opcode == 160 { DecodePlayerDataStable(s, t, at); }
    else if opcode == 161 { DecodePlayerSkillsStable(s, t, at); }
    else if opcode == 162 { DecodePlayerStateStable(s, t, at); }
    else if opcode == 120 || opcode == 121 { DecodeInventoryStable(s, t, at, opcode == 121, types); }
    else if 110 <= opcode <= 114 { DecodeContainerStable(s, t, at, opcode, types); }
    else if 125 <= opcode <= 127 { DecodeTradeStable(s, t, at, opcode, types); }
    else if 171 <= opcode <= 173 || opcode == 178 || opcode == 179 { DecodeChannelStable(s, t, at, opcode); }
    else if opcode == 150 { DecodeEditTextStable(s, t, at); }
    else if opcode == 151 { DecodeEditListStable(s, t, at); }
    else if opcode == 200 { DecodeOutfitDialogStable(s, t, at); }
    else { DecodeBuddyStable(s, t, at, opcode); }
  }

  /** On a longer payload a command reads the same, unless it had been cut off. */
  lemma DecodeStable(s: seq<byte>, t: seq<byte>, at: nat, anchor: MapPosition, types: Types)
    requires s <= t
    ensures Stable(Decode(s, at, anchor, types), Decode(t, at, anchor, types))
    ensures Decode(s, at, anchor, types).Ok? ==>
      at < |s| && Decode(s, at, anchor, types).at <= |s|
      && (Supported(s[at]) ==> at < Decode(s, at, anchor, types).at)
      && (!Supported(s[at]) ==> Decode(s, at, anchor, types) == Ok(Stepped(Unsupported, anchor), at))
  {
    hide DecodeMoving, DecodeStill, EmptyTable;
    if at < |s| && Supported(s[at]) {
      if Moves(s[at]) {
        DecodeMovingStable(s, t, at + 1, anchor, s[at], types);
      } else {
        DecodeStillStable(s, t, at + 1, s[at], types);
      }
    }
  }

  /** Commands are self-delimiting. If a supported command decodes, then appending anything
      changes neither the update nor the number of bytes it consumes, it consumes at least its
      opcode, and every proper prefix of it is refused as truncated. */
  lemma CommandsAreSelfDelimiting(s: seq<byte>, at: nat, anchor: MapPosition, types: Types)
    requires Decode(s, at, anchor, types).Ok? && Supported(s[at])
    ensures at < Decode(s, at, anchor, types).at <= |s|
    ensures forall more :: Decode(s + more, at, anchor, types) == Decode(s, at, anchor, types)
    ensures forall n :: 0 <= n < Decode(s, at, anchor, types).at ==>
      Decode(s[..n], at, anchor, types) == Fail(Truncated)
  {
    hide Decode;
    DecodeStable(s, s, at, anchor, types);
    forall more ensures Decode(s + more, at, anchor, types) == Decode(s, at, anchor, types) {
      DecodeStable(s, s + more, at, anchor, types);
    }
    forall n | 0 <= n < Decode(s, at, anchor, types).at ensures Decode(s[..n], at, anchor, types) == Fail(Truncated) {
      DecodeStable(s[..n], s, at, anchor, types);
    }
  }
}
