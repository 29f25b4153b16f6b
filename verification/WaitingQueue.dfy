/** The login queue as it lies in memory: a singly linked list of entries behind a head pointer,
    walked, extended, unlinked and trimmed in place. */
module WaitingQueues {
  import opened World
  import opened WaitingList

  class Entry {
    var next: Entry?
    var record: Record

    constructor (record: Record)
      ensures next == null && this.record == record
    {
      this.next, this.record := null, record;
    }
  }

  /** The entry at position `i` of the chain, or the end of it. */
  ghost function Link(spine: seq<Entry>, i: nat): Entry?
    requires i <= |spine|
  {
    if i < |spine| then spine[i] else null
  }

  /** The chain from `head` is exactly the spine: it ends, and it never meets itself. */
  ghost predicate Chained(head: Entry?, spine: seq<Entry>)
    reads spine`next
  {
    && head == Link(spine, 0)
    && (forall i, j :: 0 <= i < j < |spine| ==> spine[i] != spine[j])
    && (forall i :: 0 <= i < |spine| ==> spine[i].next == Link(spine, i + 1))
  }

  ghost predicate Holds(spine: seq<Entry>, list: seq<Record>)
    reads spine`record
  {
    |spine| == |list| && forall i :: 0 <= i < |spine| ==> spine[i].record == list[i]
  }

  class Queue {
    var head: Entry?
    /** The entries from the head on, and what they hold. */
    ghost var spine: seq<Entry>
    ghost var list: seq<Record>

    /** An acyclic chain with no player in it twice. */
    ghost predicate Valid()
      reads this, spine
    {
      Chained(head, spine) && Holds(spine, list) && Distinct(list)
    }

    constructor ()
      ensures Valid() && list == []
    {
      head, spine, list := null, [], [];
    }

    /** Walks to the entry of a player, remembering the one before. */
    method Locate(name: string) returns (prev: Entry?, entry: Entry?, ghost n: nat)
      requires Valid()
      ensures n == Find(list, Folded(name)) && n <= |spine| && entry == Link(spine, n)
      ensures prev == if n > 0 then spine[n - 1] else null
    {
      hide Folded, Find, Distinct;
      prev, entry, n := null, head, 0;
      while entry != null
        invariant n <= |spine| && entry == Link(spine, n) && prev == (if n > 0 then spine[n - 1] else null)
        invariant forall i :: 0 <= i < n ==> Folded(list[i].name) != Folded(name)
        decreases |spine| - n
      {
        assert entry.record == list[n];
        if Folded(entry.record.name) == Folded(name) { break; }
        prev := entry;
        entry := entry.next;
        n := n + 1;
      }
      FirstIsFind(list, Folded(name), n);
    }

    method GetEntry(name: string) returns (found: bool, nextTry: nat, free: bool, newbie: bool)
      requires Valid()
      ensures found <==> Waits(list, Folded(name))
      ensures found ==>
        var r := list[Find(list, Folded(name))];
        nextTry == r.nextTry && free == r.free && newbie == r.newbie
    {
      hide Folded, Find, Distinct;
      var prev, entry, n := Locate(name);
      if entry == null { return false, 0, false, false; }
      assert entry.record == list[n];
      return true, entry.record.nextTry, entry.record.free, entry.record.newbie;
    }

    /** A known player keeps the place; a new one goes to the end. */
    method Insert(name: string, nextTry: nat, free: bool, newbie: bool)
      requires Valid()
      modifies this, spine
      ensures Valid() && list == Inserted(old(list), name, nextTry, free, newbie)
      ensures old(spine) <= spine && forall i :: |old(spine)| <= i < |spine| ==> fresh(spine[i])
    {
      hide Folded, Find, Distinct, Chained, Holds;
      var prev, entry, n := Locate(name);
      InsertKeepsOrder(list, name, nextTry, free, newbie, "");
      OnTheChain(head, spine, list, n);
      if entry == null {
        var added := new Entry(Record(name, nextTry, free, newbie, false));
        Append(prev, added);
      } else {
        Update(entry, n, nextTry, free, newbie);
      }
    }

    method Append(prev: Entry?, added: Entry)
      requires Chained(head, spine) && Holds(spine, list) && prev == if spine == [] then null else spine[|spine| - 1]
      requires added !in spine && added.next == null
      modifies this, if prev == null then {} else {prev}
      ensures Chained(head, spine) && Holds(spine, list) && list == old(list) + [added.record]
      ensures spine == old(spine) + [added]
    {
      hide Chained, Holds, Nexts;
      ghost var before := spine;
      ghost var nexts := Nexts(spine);
      ChainMeans(head, spine);
      if prev != null {
        prev.next := added;
        assert Nexts(before) == nexts[|before| - 1 := added];
      } else {
        head := added;
      }
      ValuesExtend(before, added, list);
      spine := spine + [added];
      list := list + [added.record];
      Extended(before, added, nexts, head);
    }

    method Update(entry: Entry, ghost n: nat, nextTry: nat, free: bool, newbie: bool)
      requires Holds(spine, list) && n < |spine| && entry == spine[n]
      requires forall i, j :: 0 <= i < j < |spine| ==> spine[i] != spine[j]
      modifies this`list, entry`record
      ensures Holds(spine, list)
      ensures list == old(list)[n := old(list)[n].(nextTry := nextTry, free := free, newbie := newbie)]
    {
      entry.record := entry.record.(nextTry := nextTry, free := free, newbie := newbie);
      list := list[n := entry.record];
    }

    method Delete(name: string)
      requires Valid()
      modifies this, spine
      ensures Valid() && list == Deleted(old(list), name)
      ensures forall e :: e in spine ==> e in old(spine)
    {
      hide Folded, Find, Distinct, Chained, Holds, Thinned, Without;
      var prev, entry, n := Locate(name);
      ghost var kept := DeletedThins(list, name);
      ThinnedIsDistinct(list, Deleted(list, name), kept);
      OnTheChain(head, spine, list, n);
      if entry != null {
        Unlink(prev, entry, n);
      }
    }

    method Unlink(prev: Entry?, entry: Entry, ghost n: nat)
      requires Chained(head, spine) && Holds(spine, list)
      requires n < |spine| && entry == spine[n] && prev == if n > 0 then spine[n - 1] else null
      modifies this, if prev == null then {} else {prev}
      ensures Chained(head, spine) && Holds(spine, list)
      ensures spine == Without(old(spine), n) && list == old(list)[..n] + old(list)[n + 1..]
    {
      hide Chained, Without, Nexts, Holds;
      ghost var before := spine;
      ghost var nexts := Nexts(spine);
      ChainMeans(head, spine);
      OnTheChain(head, spine, list, n);
      if prev != null {
        prev.next := entry.next;
        assert Nexts(before) == nexts[n - 1 := nexts[n]];
      } else {
        head := entry.next;
      }
      ValuesFollow(spine, n, list);
      spine := Without(spine, n);
      list := list[..n] + list[n + 1..];
      Relinked(before, n, nexts, head);
    }

    /** Entries at the head that gave up are dropped. */
    method Trim(round: nat)
      requires Valid()
      modifies this
      ensures Valid() && list == Expired(old(list), round)
      ensures forall i :: 0 <= i < |spine| ==> spine[i] in old(spine)
    {
      hide Distinct, Chained, Holds, Expired;
      while head != null && round > head.record.nextTry + EXPIRY
        invariant Valid() && (forall i :: 0 <= i < |spine| ==> spine[i] in old(spine))
        invariant Expired(list, round) == Expired(old(list), round)
        decreases |spine|
      {
        HeadIsFirst(head, spine, list);
        DropsFirst(list, round);
        DropHead();
      }
      EndsHere(head, spine, list, round);
    }

    method DropHead()
      requires Valid() && head != null && spine != [] && list != []
      modifies this
      ensures Valid() && spine == old(spine)[1..] && list == old(list)[1..]
    {
      hide Distinct, Chained, Holds;
      HeadIsFirst(head, spine, list);
      head := head.next;
      spine := spine[1..];
      list := list[1..];
    }

    /** Walks up to the player's entry, putting to sleep who is late and counting who is awake. */
    method CountAhead(name: string, round: nat) returns (tally: Tally)
      requires Valid()
      modifies this`list, spine`record
      ensures Valid() && list == MarkedFirst(old(list), Find(old(list), Folded(name)), round)
      ensures tally == Tallied(old(list), Find(old(list), Folded(name)), round)
    {
      hide Folded, Find, Tallied, Marked, Distinct, MarkedFirst, Chained, Holds, Link, Counted;
      ghost var was := list;
      var entry := head;
      ghost var n := 0;
      tally := Tally(0, 0, 0, 0);
      CountingStarts(was, round);
      OnTheChain(head, spine, list, 0);
      while entry != null
        invariant n <= |spine| == |was| && spine == old(spine) && entry == Link(spine, n) && Valid()
        invariant list == MarkedFirst(was, n, round) && tally == Tallied(was, n, round)
        invariant forall i :: 0 <= i < n ==> Folded(was[i].name) != Folded(name)
        decreases |spine| - n
      {
        OnTheChain(head, spine, list, n);
        CountingStep(was, n, round);
        if Folded(entry.record.name) == Folded(name) { break; }
        tally := Regard(entry, n, round, tally);
        MarkingKeepsNames(was, n + 1, round);
        entry := entry.next;
        n := n + 1;
      }
      OnTheChain(head, spine, list, n);
      FirstIsFind(was, Folded(name), n);
    }

    /** One entry on the way. */
    method Regard(entry: Entry, ghost n: nat, round: nat, before: Tally) returns (tally: Tally)
      requires Holds(spine, list) && n < |spine| && entry == spine[n]
      requires forall i, j :: 0 <= i < j < |spine| ==> spine[i] != spine[j]
      modifies this`list, entry`record
      ensures Holds(spine, list)
      ensures list == old(list)[n := Marked(old(list)[n], round)] && tally == Counted(before, old(list)[n], round)
    {
      var record := entry.record;
      tally := before;
      if !record.sleeping {
        if round > record.nextTry + PATIENCE {
          entry.record := record.(sleeping := true);
        } else if record.free {
          if record.newbie {
            tally := tally.(freeNewbies := tally.freeNewbies + 1);
          } else {
            tally := tally.(freeVeterans := tally.freeVeterans + 1);
          }
        } else {
          if record.newbie {
            tally := tally.(premiumNewbies := tally.premiumNewbies + 1);
          } else {
            tally := tally.(premiumVeterans := tally.premiumVeterans + 1);
          }
        }
      }
      list := list[n := entry.record];
    }

    /** Drops who gave up at the head, then reports the place of the player. */
    method GetPosition(name: string, round: nat, asker: Asker) returns (position: nat)
      requires Valid()
      modifies this, spine
      ensures Valid() && list == Asked(old(list), Folded(name), round)
      ensures position == Position(old(list), Folded(name), round, asker)
    {
      hide Folded, Find, Tallied, Expired, Place, Distinct, Chained, Holds;
      Trim(round);
      var tally := CountAhead(name, round);
      position := Place(tally, asker);
    }
  }

  lemma OnTheChain(head: Entry?, spine: seq<Entry>, list: seq<Record>, n: nat)
    requires Chained(head, spine) && Holds(spine, list) && n <= |spine|
    ensures |spine| == |list| && head == Link(spine, 0) && (Link(spine, n) == null <==> n == |spine|)
    ensures n < |spine| ==>
      Link(spine, n) == spine[n] && spine[n].record == list[n] && spine[n].next == Link(spine, n + 1)
    ensures forall i, j :: 0 <= i < j < |spine| ==> spine[i] != spine[j]
  {
  }

  lemma FirstIsFind(list: seq<Record>, key: string, n: nat)
    requires n <= |list| && (forall i :: 0 <= i < n ==> Folded(list[i].name) != key)
    requires n < |list| ==> Folded(list[n].name) == key
    ensures Find(list, key) == n
  {
    hide Folded;
    var m := Find(list, key);
    assert !(m < n);
  }

  function Without(spine: seq<Entry>, n: nat): (rest: seq<Entry>)
    requires n < |spine|
    ensures |rest| == |spine| - 1
    ensures forall e :: e in rest ==> e in spine
  {
    spine[..n] + spine[n + 1..]
  }

  ghost function Nexts(spine: seq<Entry>): (nexts: seq<Entry?>)
    reads spine`next
    ensures |nexts| == |spine| && forall i :: 0 <= i < |spine| ==> nexts[i] == spine[i].next
  {
    if spine == [] then [] else [spine[0].next] + Nexts(spine[1..])
  }

  lemma ChainMeans(head: Entry?, spine: seq<Entry>)
    requires Chained(head, spine)
    ensures head == Link(spine, 0) && forall i :: 0 <= i < |spine| ==> Nexts(spine)[i] == Link(spine, i + 1)
    ensures forall i, j :: 0 <= i < j < |spine| ==> spine[i] != spine[j]
  {
  }

  /** With the entry before bridged over entry `n`, or the head past it, the others are chained. */
  lemma Relinked(spine: seq<Entry>, n: nat, nexts: seq<Entry?>, head: Entry?)
    requires n < |spine| == |nexts| && forall i, j :: 0 <= i < j < |spine| ==> spine[i] != spine[j]
    requires forall i :: 0 <= i < |spine| ==> nexts[i] == Link(spine, i + 1)
    requires head == if n > 0 then spine[0] else nexts[n]
    requires Nexts(spine) == if n > 0 then nexts[n - 1 := nexts[n]] else nexts
    ensures Chained(head, Without(spine, n))
  {
    hide Without, Link, Nexts;
    LinkWithout(spine, n, 0);
    WithoutIsDistinct(spine, n);
    forall i | 0 <= i < |spine| - 1 ensures Without(spine, n)[i].next == Link(Without(spine, n), i + 1) {
      LinkWithout(spine, n, i);
      LinkWithout(spine, n, i + 1);
      assert Nexts(spine)[if i < n then i else i + 1] == Without(spine, n)[i].next;
    }
  }

  lemma Extended(spine: seq<Entry>, added: Entry, nexts: seq<Entry?>, head: Entry?)
    requires |spine| == |nexts| && added !in spine && added.next == null
    requires forall i, j :: 0 <= i < j < |spine| ==> spine[i] != spine[j]
    requires forall i :: 0 <= i < |spine| ==> nexts[i] == Link(spine, i + 1)
    requires head == if spine == [] then added else spine[0]
    requires Nexts(spine) == if spine == [] then [] else nexts[|spine| - 1 := added]
    ensures Chained(head, spine + [added])
  {
    hide Nexts;
    var longer := spine + [added];
    forall i | 0 <= i < |longer| ensures longer[i].next == Link(longer, i + 1) {
      if i < |spine| { assert Nexts(spine)[i] == longer[i].next; }
    }
  }

  lemma ValuesExtend(spine: seq<Entry>, added: Entry, list: seq<Record>)
    requires Holds(spine, list)
    ensures Holds(spine + [added], list + [added.record])
  {
  }

  lemma ValuesFollow(spine: seq<Entry>, n: nat, list: seq<Record>)
    requires n < |spine| && Holds(spine, list)
    ensures Holds(Without(spine, n), list[..n] + list[n + 1..])
  {
  }

  lemma LinkWithout(spine: seq<Entry>, n: nat, i: nat)
    requires n < |spine| && i < |spine|
    ensures Link(Without(spine, n), i) == if i < n then spine[i] else Link(spine, i + 1)
    ensures i < |spine| - 1 ==> Without(spine, n)[i] == spine[if i < n then i else i + 1]
    ensures Link(spine, i) == spine[i]
  {
  }

  lemma WithoutIsDistinct(spine: seq<Entry>, n: nat)
    requires n < |spine| && forall i, j :: 0 <= i < j < |spine| ==> spine[i] != spine[j]
    ensures forall i, j :: 0 <= i < j < |spine| - 1 ==> Without(spine, n)[i] != Without(spine, n)[j]
  {
  }

  lemma HeadIsFirst(head: Entry?, spine: seq<Entry>, list: seq<Record>)
    requires Chained(head, spine) && Holds(spine, list) && Distinct(list) && head != null
    ensures spine != [] && list != [] && head.record == list[0]
    ensures Chained(head.next, spine[1..]) && Holds(spine[1..], list[1..]) && Distinct(list[1..])
  {
  }

  lemma EndsHere(head: Entry?, spine: seq<Entry>, list: seq<Record>, round: nat)
    requires Chained(head, spine) && Holds(spine, list) && (head == null || round <= head.record.nextTry + EXPIRY)
    ensures Expired(list, round) == list
  {
    if list != [] { assert spine[0].record == list[0]; }
  }

  lemma DropsFirst(list: seq<Record>, round: nat)
    requires list != [] && round > list[0].nextTry + EXPIRY
    ensures Expired(list, round) == Expired(list[1..], round)
  {
  }

  lemma CountingStarts(list: seq<Record>, round: nat)
    ensures MarkedFirst(list, 0, round) == list && Tallied(list, 0, round) == Tally(0, 0, 0, 0)
  {
  }

  /** The tally with one more entry looked at. */
  function Counted(t: Tally, r: Record, round: nat): Tally {
    if r.sleeping || round > r.nextTry + PATIENCE then t
    else if r.free then (if r.newbie then t.(freeNewbies := t.freeNewbies + 1)
      else t.(freeVeterans := t.freeVeterans + 1))
    else (if r.newbie then t.(premiumNewbies := t.premiumNewbies + 1) else t.(premiumVeterans := t.premiumVeterans + 1))
  }

  lemma CountingStep(list: seq<Record>, n: nat, round: nat)
    requires n < |list|
    ensures Tallied(list, n + 1, round) == Counted(Tallied(list, n, round), list[n], round)
    ensures MarkedFirst(list, n, round)[n] == list[n]
    ensures MarkedFirst(list, n + 1, round) == MarkedFirst(list, n, round)[n := Marked(list[n], round)]
  {
  }

  lemma MarkingKeepsNames(list: seq<Record>, n: nat, round: nat)
    requires n <= |list|
    ensures Distinct(list) ==> Distinct(MarkedFirst(list, n, round))
  {
    hide Folded;
    assert forall i :: 0 <= i < |list| ==> MarkedFirst(list, n, round)[i].name == list[i].name;
  }
}
