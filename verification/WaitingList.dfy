/** The login queue of reference/game/src/communication.cc as lists of records: what each
    operation makes of the queue, and why nobody overtakes. */
module WaitingList {
  import opened World

  datatype Record = Record(name: string, nextTry: nat, free: bool, newbie: bool, sleeping: bool)

  const EXPIRY := 60
  const PATIENCE := 5

  function Find(list: seq<Record>, key: string): (n: nat)
    ensures n <= |list|
    ensures n < |list| ==> Folded(list[n].name) == key
    ensures forall i :: 0 <= i < n ==> Folded(list[i].name) != key
  {
    if list == [] || Folded(list[0].name) == key then 0 else 1 + Find(list[1..], key)
  }

  ghost predicate Distinct(list: seq<Record>) {
    forall i, j :: 0 <= i < j < |list| ==> Folded(list[i].name) != Folded(list[j].name)
  }

  predicate Waits(list: seq<Record>, key: string) {
    Find(list, key) < |list|
  }

  // ---- the operations ------------------------------------------------------------------------

  function Inserted(list: seq<Record>, name: string, nextTry: nat, free: bool, newbie: bool): seq<Record> {
    var n := Find(list, Folded(name));
    if n < |list| then list[n := list[n].(nextTry := nextTry, free := free, newbie := newbie)]
    else list + [Record(name, nextTry, free, newbie, false)]
  }

  function Deleted(list: seq<Record>, name: string): seq<Record> {
    var n := Find(list, Folded(name));
    if n < |list| then list[..n] + list[n + 1..] else list
  }

  /** Entries at the front that have not asked for a minute are gone. */
  function Expired(list: seq<Record>, round: nat): seq<Record> {
    if list != [] && round > list[0].nextTry + EXPIRY then Expired(list[1..], round) else list
  }

  predicate Dozes(r: Record, round: nat) {
    !r.sleeping && round > r.nextTry + PATIENCE
  }

  predicate Counts(r: Record, round: nat) {
    !r.sleeping && round <= r.nextTry + PATIENCE
  }

  function Marked(r: Record, round: nat): Record {
    if Dozes(r, round) then r.(sleeping := true) else r
  }

  function MarkedFirst(list: seq<Record>, n: nat, round: nat): (out: seq<Record>)
    requires n <= |list|
    ensures |out| == |list|
  {
    seq(|list|, i requires 0 <= i < |list| => if i < n then Marked(list[i], round) else list[i])
  }

  /** Awake entries among the first `n`, by account and level. */
  datatype Tally = Tally(freeNewbies: nat, freeVeterans: nat, premiumNewbies: nat, premiumVeterans: nat)

  function Tallied(list: seq<Record>, n: nat, round: nat): Tally
    requires n <= |list|
  {
    if n == 0 then Tally(0, 0, 0, 0)
    else
      var t := Tallied(list, n - 1, round);
      var r := list[n - 1];
      if !Counts(r, round) then t
      else if r.free then (if r.newbie then t.(freeNewbies := t.freeNewbies + 1)
        else t.(freeVeterans := t.freeVeterans + 1))
      else (if r.newbie then t.(premiumNewbies := t.premiumNewbies + 1)
        else t.(premiumVeterans := t.premiumVeterans + 1))
  }

  /** Who is asking, and how full the beginners' island is. */
  datatype Asker = Asker(free: bool, newbie: bool, newbiesOnline: int, maxNewbies: int, newbieBuffer: int)

  function Place(t: Tally, asker: Asker): nat {
    1 +
    if asker.free then
      t.premiumVeterans + t.freeVeterans
      + if asker.newbie then t.premiumNewbies + t.freeNewbies
        else if asker.newbiesOnline < asker.maxNewbies - asker.newbieBuffer then t.freeNewbies else 0
    else
      t.premiumVeterans + if asker.newbie || asker.newbiesOnline < asker.maxNewbies then t.premiumNewbies else 0
  }

  function Asked(list: seq<Record>, key: string, round: nat): seq<Record> {
    var left := Expired(list, round);
    MarkedFirst(left, Find(left, key), round)
  }

  function Position(list: seq<Record>, key: string, round: nat, asker: Asker): nat {
    var left := Expired(list, round);
    Place(Tallied(left, Find(left, key), round), asker)
  }

  // ---- who is ahead ------------------------------------------------------------------------------

  ghost function Ahead(list: seq<Record>, key: string): set<string> {
    set i | 0 <= i < Find(list, key) :: Folded(list[i].name)
  }

  ghost function AwakeAhead(list: seq<Record>, key: string): set<string> {
    set i | 0 <= i < Find(list, key) && !list[i].sleeping :: Folded(list[i].name)
  }

  lemma FindIs(list: seq<Record>, key: string, n: nat)
    requires Distinct(list) && n < |list| && Folded(list[n].name) == key
    ensures Find(list, key) == n
  {
    var m := Find(list, key);
    assert !(m < n);
  }

  datatype Step =
    | Insert(name: string, nextTry: nat, free: bool, newbie: bool)
    | Delete(name: string)
    | Ask(key: string, round: nat)

  function Stepped(list: seq<Record>, step: Step): seq<Record> {
    match step
    case Insert(name, nextTry, free, newbie) => Inserted(list, name, nextTry, free, newbie)
    case Delete(name) => Deleted(list, name)
    case Ask(key, round) => Asked(list, key, round)
  }

  predicate Follows(before: Record, after: Record) {
    Folded(after.name) == Folded(before.name) && (before.sleeping ==> after.sleeping)
  }

  /** `kept` lists, in increasing order, which entries of `before` are in `after`; a kept entry
      keeps its name, and wakes up never. */
  ghost predicate Thinned(before: seq<Record>, after: seq<Record>, kept: seq<nat>) {
    && |after| == |kept|
    && (forall i :: 0 <= i < |kept| ==> kept[i] < |before| && Follows(before[kept[i]], after[i]))
    && forall i, j :: 0 <= i < j < |kept| ==> kept[i] < kept[j]
  }

  lemma ThinnedIsDistinct(before: seq<Record>, after: seq<Record>, kept: seq<nat>)
    requires Thinned(before, after, kept) && Distinct(before)
    ensures Distinct(after)
  {
  }

  lemma ThinnedShrinks(before: seq<Record>, after: seq<Record>, kept: seq<nat>, key: string)
    requires Thinned(before, after, kept) && Distinct(before) && Waits(after, key)
    ensures Waits(before, key) && Ahead(after, key) <= Ahead(before, key)
    ensures AwakeAhead(after, key) <= AwakeAhead(before, key)
  {
    var n := Find(after, key);
    FindIs(before, key, kept[n]);
    forall k | k in Ahead(after, key) ensures k in Ahead(before, key) {
      var i :| 0 <= i < n && k == Folded(after[i].name);
      assert k == Folded(before[kept[i]].name);
    }
    forall k | k in AwakeAhead(after, key) ensures k in AwakeAhead(before, key) {
      var i :| 0 <= i < n && !after[i].sleeping && k == Folded(after[i].name);
      assert k == Folded(before[kept[i]].name) && !before[kept[i]].sleeping;
    }
  }

  function Upto(n: nat): (ns: seq<nat>)
    ensures |ns| == n && forall i :: 0 <= i < n ==> ns[i] == i
  {
    seq(n, i requires 0 <= i < n => i)
  }

  lemma {:induction false} ExpiredIsSuffix(list: seq<Record>, round: nat) returns (dropped: nat)
    ensures dropped <= |list| && Expired(list, round) == list[dropped..]
    ensures forall i :: 0 <= i < dropped ==> round > list[i].nextTry + EXPIRY
    decreases |list|
  {
    if list != [] && round > list[0].nextTry + EXPIRY {
      var rest := ExpiredIsSuffix(list[1..], round);
      dropped := rest + 1;
      assert list[1..][rest..] == list[dropped..];
      forall i | 0 <= i < dropped ensures round > list[i].nextTry + EXPIRY {
        if i > 0 { assert list[i] == list[1..][i - 1]; }
      }
    } else {
      dropped := 0;
    }
  }

  lemma AskedThins(list: seq<Record>, key: string, round: nat) returns (kept: seq<nat>)
    ensures Thinned(list, Asked(list, key, round), kept)
  {
    hide Folded, Find;
    var dropped := ExpiredIsSuffix(list, round);
    kept := seq(|list| - dropped, i requires 0 <= i < |list| - dropped => i + dropped);
    var left := Expired(list, round);
    var after := Asked(list, key, round);
    forall i | 0 <= i < |kept| ensures Follows(list[kept[i]], after[i]) {
      assert left[i] == list[kept[i]];
    }
  }

  lemma DeletedThins(list: seq<Record>, name: string) returns (kept: seq<nat>)
    ensures Thinned(list, Deleted(list, name), kept)
  {
    hide Folded, Find;
    var n := Find(list, Folded(name));
    var after := Deleted(list, name);
    kept := if n < |list| then Skipping(|list|, n) else Upto(|list|);
    forall i | 0 <= i < |kept| ensures kept[i] < |list| && Follows(list[kept[i]], after[i]) {
      assert after[i] == list[kept[i]];
    }
  }

  /** All indexes but `n`. */
  function Skipping(size: nat, n: nat): (ns: seq<nat>)
    requires n < size
    ensures |ns| == size - 1 && forall i :: 0 <= i < size - 1 ==> ns[i] == if i < n then i else i + 1
  {
    seq(size - 1, i requires 0 <= i < size - 1 => if i < n then i else i + 1)
  }

  /** One operation: the names stay distinct, and whoever waits before and after it has nobody
      new ahead, and nobody newly awake. */
  lemma StepKeepsOrder(list: seq<Record>, step: Step, key: string)
    requires Distinct(list)
    ensures Distinct(Stepped(list, step))
    ensures Waits(list, key) && Waits(Stepped(list, step), key) ==>
      Ahead(Stepped(list, step), key) <= Ahead(list, key)
      && AwakeAhead(Stepped(list, step), key) <= AwakeAhead(list, key)
  {
    hide Folded, Asked, Deleted;
    match step {
      case Delete(name) =>
        var kept := DeletedThins(list, name);
        ThinnedIsDistinct(list, Stepped(list, step), kept);
        if Waits(Stepped(list, step), key) { ThinnedShrinks(list, Stepped(list, step), kept, key); }
      case Ask(k, round) =>
        var kept := AskedThins(list, k, round);
        ThinnedIsDistinct(list, Stepped(list, step), kept);
        if Waits(Stepped(list, step), key) { ThinnedShrinks(list, Stepped(list, step), kept, key); }
      case Insert(name, nextTry, free, newbie) =>
        InsertKeepsOrder(list, name, nextTry, free, newbie, key);
    }
  }

  lemma InsertKeepsOrder(list: seq<Record>, name: string, nextTry: nat, free: bool, newbie: bool, key: string)
    requires Distinct(list)
    ensures var after := Inserted(list, name, nextTry, free, newbie);
      Distinct(after) && (Waits(list, key) ==>
        Ahead(after, key) <= Ahead(list, key) && AwakeAhead(after, key) <= AwakeAhead(list, key))
  {
    hide Folded;
    var after := Inserted(list, name, nextTry, free, newbie);
    var n := Find(list, Folded(name));
    if n < |list| {
      assert Thinned(list, after, Upto(|list|));
      ThinnedIsDistinct(list, after, Upto(|list|));
      if Waits(list, key) {
        FindIs(after, key, Find(list, key));
        ThinnedShrinks(list, after, Upto(|list|), key);
      }
    } else if Waits(list, key) {
      FindIs(after, key, Find(list, key));
    }
  }

  function After(list: seq<Record>, steps: seq<Step>): seq<Record>
    decreases |steps|
  {
    if steps == [] then list else After(Stepped(list, steps[0]), steps[1..])
  }

  /** `key` is in the queue now and after every step. */
  predicate Stays(list: seq<Record>, steps: seq<Step>, key: string)
    decreases |steps|
  {
    Waits(list, key) && (steps == [] || Stays(Stepped(list, steps[0]), steps[1..], key))
  }

  /** No overtaking: while an entry stays in the queue, over any run of operations, the entries
      ahead of it only become fewer, and so do the ones awake. */
  lemma {:induction false} NobodyOvertakes(list: seq<Record>, steps: seq<Step>, key: string)
    requires Distinct(list) && Stays(list, steps, key)
    ensures var after := After(list, steps);
      Distinct(after) && Waits(after, key) && Ahead(after, key) <= Ahead(list, key)
      && AwakeAhead(after, key) <= AwakeAhead(list, key)
    decreases |steps|
  {
    hide Stepped, Find, Ahead, AwakeAhead;
    if steps != [] {
      StepKeepsOrder(list, steps[0], key);
      StaysStart(Stepped(list, steps[0]), steps[1..], key);
      NobodyOvertakes(Stepped(list, steps[0]), steps[1..], key);
    }
  }

  lemma StaysStart(list: seq<Record>, steps: seq<Step>, key: string)
    requires Stays(list, steps, key)
    ensures Waits(list, key)
  {
  }

  lemma {:induction false} EveryRunStaysDistinct(list: seq<Record>, steps: seq<Step>)
    requires Distinct(list)
    ensures Distinct(After(list, steps))
    decreases |steps|
  {
    hide Stepped;
    if steps != [] {
      StepKeepsOrder(list, steps[0], "");
      EveryRunStaysDistinct(Stepped(list, steps[0]), steps[1..]);
    }
  }

  // ---- the reported position ---------------------------------------------------------------------------

  function Total(t: Tally): nat {
    t.freeNewbies + t.freeVeterans + t.premiumNewbies + t.premiumVeterans
  }

  function CountedFirst(list: seq<Record>, n: nat, round: nat): set<string>
    requires n <= |list|
  {
    if n == 0 then {}
    else CountedFirst(list, n - 1, round) + if Counts(list[n - 1], round) then {Folded(list[n - 1].name)} else {}
  }

  lemma {:induction false} CountedMeans(list: seq<Record>, n: nat, round: nat, k: string)
    requires n <= |list|
    ensures k in CountedFirst(list, n, round) <==>
      exists i :: 0 <= i < n && Counts(list[i], round) && Folded(list[i].name) == k
    decreases n
  {
    hide Folded, Counts;
    if n > 0 { CountedMeans(list, n - 1, round, k); }
  }

  lemma LastIsNew(list: seq<Record>, n: nat, round: nat)
    requires 0 < n <= |list| && Distinct(list)
    ensures Folded(list[n - 1].name) !in CountedFirst(list, n - 1, round)
  {
    hide Folded, Counts;
    CountedMeans(list, n - 1, round, Folded(list[n - 1].name));
  }

  lemma {:induction false} TallyIsCount(list: seq<Record>, n: nat, round: nat)
    requires n <= |list| && Distinct(list)
    ensures Total(Tallied(list, n, round)) == |CountedFirst(list, n, round)|
    decreases n
  {
    hide Folded, Counts, Distinct;
    if n > 0 {
      TallyIsCount(list, n - 1, round);
      var fewer := CountedFirst(list, n - 1, round);
      LastIsNew(list, n, round);
      assert fewer + {} == fewer;
    }
  }

  /** A reported position is at least one and at most one more than the entries ahead that are
      still awake; a newbie with a free account waits for every one of them. */
  lemma PositionCountsAwake(list: seq<Record>, key: string, round: nat, asker: Asker)
    requires Distinct(list)
    ensures var after := Asked(list, key, round);
      1 <= Position(list, key, round, asker) <= 1 + |AwakeAhead(after, key)|
      && (asker.free && asker.newbie ==> Position(list, key, round, asker) == 1 + |AwakeAhead(after, key)|)
  {
    hide Folded, Find, Tallied, AwakeAhead, CountedFirst, Expired, MarkedFirst;
    var left := Expired(list, round);
    var n := Find(left, key);
    ExpiredStaysDistinct(list, round);
    TallyIsCount(left, n, round);
    AwakeIsCounted(left, n, round, key);
  }

  lemma ExpiredStaysDistinct(list: seq<Record>, round: nat)
    requires Distinct(list)
    ensures Distinct(Expired(list, round))
  {
    hide Folded;
    var dropped := ExpiredIsSuffix(list, round);
  }

  /** After the walk, the entries ahead that are awake are the ones that were counted. */
  lemma AwakeIsCounted(list: seq<Record>, n: nat, round: nat, key: string)
    requires n == Find(list, key)
    ensures AwakeAhead(MarkedFirst(list, n, round), key) == CountedFirst(list, n, round)
  {
    hide Folded, Find;
    var after := MarkedFirst(list, n, round);
    MarkingKeepsPlace(list, n, round, key);
    forall k ensures k in AwakeAhead(after, key) <==> k in CountedFirst(list, n, round) {
      CountedMeans(list, n, round, k);
      if k in AwakeAhead(after, key) {
        var i :| 0 <= i < n && !after[i].sleeping && k == Folded(after[i].name);
        assert Counts(list[i], round);
      }
      if k in CountedFirst(list, n, round) {
        var i :| 0 <= i < n && Counts(list[i], round) && k == Folded(list[i].name);
        assert !after[i].sleeping && k == Folded(after[i].name);
      }
    }
  }

  lemma MarkingKeepsPlace(list: seq<Record>, n: nat, round: nat, key: string)
    requires n == Find(list, key)
    ensures Find(MarkedFirst(list, n, round), key) == n
  {
    hide Folded;
    var after := MarkedFirst(list, n, round);
    var m := Find(after, key);
    assert forall i :: 0 <= i < |list| ==> after[i].name == list[i].name;
    assert !(m < n);
    assert !(n < m);
  }

  /** The place of a newbie with a free account never gets worse: ask, let anything happen that
      leaves the entry in the queue, ask again. */
  lemma PlaceNeverWorsens(
      list: seq<Record>, key: string, round: nat, asker: Asker, steps: seq<Step>, later: nat, again: Asker)
    requires Distinct(list) && asker.free && asker.newbie
    requires Stays(Asked(list, key, round), steps + [Ask(key, later)], key)
    ensures Position(After(Asked(list, key, round), steps), key, later, again) <= Position(list, key, round, asker)
  {
    hide Folded, Find, Asked, AwakeAhead, Ahead, Position;
    var first := Asked(list, key, round);
    StepKeepsOrder(list, Ask(key, round), key);
    PositionCountsAwake(list, key, round, asker);
    NobodyOvertakes(first, steps + [Ask(key, later)], key);
    AfterLast(first, steps, Ask(key, later));
    EveryRunStaysDistinct(first, steps);
    PositionCountsAwake(After(first, steps), key, later, again);
    SubsetIsSmaller(AwakeAhead(Asked(After(first, steps), key, later), key), AwakeAhead(first, key));
  }

  lemma {:induction false} AfterLast(list: seq<Record>, steps: seq<Step>, last: Step)
    ensures After(list, steps + [last]) == Stepped(After(list, steps), last)
    decreases |steps|
  {
    hide Stepped;
    if steps == [] {
      assert ([] + [last])[1..] == [];
    } else {
      assert (steps + [last])[1..] == steps[1..] + [last];
      AfterLast(Stepped(list, steps[0]), steps[1..], last);
    }
  }
}
