/** The object type table: what the wire does not say about an item, and where an
    object lands in the stack of a field. */
module ObjectTypes {
  import opened World

  const LAST_BODY_CONTAINER := 10
  const CREATURE_CONTAINER := 99
  const SKIP_MARKER_BASE := 0xFF00

  /** Bank, clip, bottom, top, creature, low: 0 to 5. */
  type Priority = p: int | 0 <= p <= 5

  const PRIORITY_CREATURE: Priority := 4
  const PRIORITY_LOW: Priority := 5

  datatype Encoding = Encoding(
    known: bool, liquidColor: bool, cumulative: bool, priority: Priority, unpass: bool, unmove: bool)

  const UNDECLARED := Encoding(false, false, false, PRIORITY_LOW, false, false)

  type Types = seq<Encoding>

  function Lookup(types: Types, typeId: word): Encoding {
    if typeId < |types| then types[typeId] else UNDECLARED
  }

  function ThingPriority(thing: MapThing, types: Types): Priority {
    match thing
    case Creature(_) => PRIORITY_CREATURE
    case Item(item) => Lookup(types, item.typeId).priority
  }

  function Priorities(things: seq<MapThing>, types: Types): (ps: seq<Priority>)
    ensures |ps| == |things|
  {
    seq(|things|, i requires 0 <= i < |things| => ThingPriority(things[i], types))
  }

  /** The table grows on demand and each type id is declared at most once. */
  class ObjectTypeTable {
    var entries: Types
    var declared: nat
    var maxTypeId: word

    ghost predicate Valid()
      reads this
    {
      declared == |KnownIds(entries)| && |entries| <= SKIP_MARKER_BASE
      && forall id: word :: Lookup(entries, id).known ==> id <= maxTypeId
    }

    constructor ()
      ensures Valid() && entries == [] && declared == 0
    {
      entries, declared, maxTypeId := [], 0, 0;
    }

    method Declare(typeId: word, encoding: Encoding) returns (accepted: bool)
      requires Valid()
      modifies this
      ensures Valid()
      ensures accepted <==> typeId < SKIP_MARKER_BASE && !Lookup(old(entries), typeId).known
      ensures forall id: word ::
        Lookup(entries, id) == if accepted && id == typeId then encoding.(known := true) else Lookup(old(entries), id)
      ensures declared == old(declared) + if accepted then 1 else 0
    {
      if typeId >= SKIP_MARKER_BASE { return false; }
      if |entries| <= typeId {
        entries := entries + seq(typeId + 1 - |entries|, _ => UNDECLARED);
        UndeclaredGrowth(old(entries), entries);
      }
      if entries[typeId].known { return false; }
      ghost var before := entries;
      entries := entries[typeId := encoding.(known := true)];
      assert KnownIds(entries) == KnownIds(before) + {typeId};
      declared := declared + 1;
      if typeId > maxTypeId { maxTypeId := typeId; }
      assert forall id: word :: id != typeId ==> Lookup(entries, id) == Lookup(before, id);
      return true;
    }
  }

  ghost function KnownIds(entries: Types): set<int> {
    set id | 0 <= id < |entries| && entries[id].known
  }

  lemma UndeclaredGrowth(small: Types, large: Types)
    requires small <= large && forall i :: |small| <= i < |large| ==> large[i] == UNDECLARED
    ensures KnownIds(large) == KnownIds(small)
    ensures forall id: word :: Lookup(large, id) == Lookup(small, id)
  {
  }

  /** The server's rule: everything but creatures and low objects goes after its equals. */
  predicate Appends(inserted: Priority) {
    inserted != PRIORITY_CREATURE && inserted != PRIORITY_LOW
  }

  /** An object already in the stack that stays below the inserted one. */
  predicate StaysBelow(current: Priority, inserted: Priority) {
    if Appends(inserted) then current <= inserted else current < inserted
  }

  function InsertIndex(existing: seq<Priority>, inserted: Priority): (index: nat)
    ensures index <= |existing|
    ensures forall i :: 0 <= i < index ==> StaysBelow(existing[i], inserted)
    ensures index < |existing| ==> !StaysBelow(existing[index], inserted)
  {
    if existing == [] || !StaysBelow(existing[0], inserted) then 0
    else 1 + InsertIndex(existing[1..], inserted)
  }

  method MapStackInsertIndex(existing: seq<Priority>, inserted: Priority) returns (index: nat)
    ensures index == InsertIndex(existing, inserted)
  {
    var append := inserted != PRIORITY_CREATURE && inserted != PRIORITY_LOW;
    index := 0;
    while index < |existing|
      invariant index <= |existing|
      invariant forall i :: 0 <= i < index ==> StaysBelow(existing[i], inserted)
    {
      var current := existing[index];
      if append {
        if current > inserted { break; }
      } else {
        if current >= inserted { break; }
      }
      index := index + 1;
    }
  }

  ghost predicate Ordered(ps: seq<Priority>) {
    forall i, j :: 0 <= i < j < |ps| ==> ps[i] <= ps[j]
  }

  function InsertAt<T>(s: seq<T>, index: nat, x: T): (r: seq<T>)
    requires index <= |s|
    ensures |r| == |s| + 1
  {
    s[..index] + [x] + s[index..]
  }

  function RemoveAt<T>(s: seq<T>, index: nat): (r: seq<T>)
    requires index < |s|
    ensures |r| == |s| - 1
  {
    s[..index] + s[index + 1..]
  }

  lemma Grown<T>(s: seq<T>, index: nat, x: T)
    requires index <= |s|
    ensures InsertAt(s, index, x)[index] == x
    ensures forall i :: 0 <= i < index ==> InsertAt(s, index, x)[i] == s[i]
    ensures forall i :: index <= i < |s| ==> InsertAt(s, index, x)[i + 1] == s[i]
    ensures forall i :: index < i <= |s| ==> InsertAt(s, index, x)[i] == s[i - 1]
  {
    forall i | index <= i < |s| ensures InsertAt(s, index, x)[i + 1] == s[i] {
      assert s[index..][i - index] == s[i];
    }
  }

  /** The index that keeps an ordered stack ordered, with the new object above all its
      equals when its class appends and below all of them otherwise. */
  ghost predicate InPlace(existing: seq<Priority>, inserted: Priority, index: nat)
    requires index <= |existing|
  {
    && Ordered(InsertAt(existing, index, inserted))
    && forall i :: 0 <= i < |existing| && existing[i] == inserted ==> (i < index <==> Appends(inserted))
  }

  lemma InsertIndexPlaces(existing: seq<Priority>, inserted: Priority)
    requires Ordered(existing)
    ensures InPlace(existing, inserted, InsertIndex(existing, inserted))
  {
    hide InsertIndex;
    var index := InsertIndex(existing, inserted);
    hide InsertAt;
    Grown(existing, index, inserted);
    var grown := InsertAt(existing, index, inserted);
    assert forall i :: index <= i < |existing| ==> existing[index] <= existing[i];
    forall i, j | 0 <= i < j < |grown| ensures grown[i] <= grown[j] {
      if j < index {
      } else if j == index {
        assert StaysBelow(existing[i], inserted);
      } else if i < index {
        assert existing[i] <= existing[j - 1];
      }
    }
  }

  /** No other index does: the client's walk is the only one that agrees with the server. */
  lemma PlacementIsUnique(existing: seq<Priority>, inserted: Priority, other: nat)
    requires Ordered(existing) && other <= |existing| && InPlace(existing, inserted, other)
    ensures other == InsertIndex(existing, inserted)
  {
    var grown := InsertAt(existing, other, inserted);
    Grown(existing, other, inserted);
    forall i | 0 <= i < other ensures StaysBelow(existing[i], inserted) {
      assert grown[i] <= grown[other];
    }
    if other < |existing| {
      assert grown[other] <= grown[other + 1];
    }
  }
}
