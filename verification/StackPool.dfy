/** The pool of thread stacks of reference/game/src/communication.cc, under every interleaving
    of its threads. */
module StackPool {
  import opened World

  const MAX_COMMUNICATION_THREADS := 1100

  // ---- the array operations -----------------------------------------------------------------

  /** Slot `i` is filled from the end. */
  function Taken(free: seq<nat>, i: nat): seq<nat>
    requires i < |free|
  {
    free[i := free[|free| - 1]][..|free| - 1]
  }

  lemma TakenHolds(free: seq<nat>, i: nat, s: nat)
    requires i < |free| && Distinct(free)
    ensures Distinct(Taken(free, i)) && (s in Taken(free, i) <==> s in free && s != free[i])
  {
    var rest := Taken(free, i);
    if s in free && s != free[i] {
      var k :| 0 <= k < |free| && free[k] == s;
      if k == |free| - 1 { assert rest[i] == s; } else { assert rest[k] == s; }
    }
  }

  ghost predicate Distinct(free: seq<nat>) {
    forall i, j :: 0 <= i < j < |free| ==> free[i] != free[j]
  }

  /** The first slot whose stack was found eligible, each slot having been tested once. */
  function FirstYes(answers: seq<bool>): (i: nat)
    ensures i <= |answers| && (i < |answers| ==> answers[i])
    ensures forall k :: 0 <= k < i ==> !answers[k]
  {
    if answers == [] || answers[0] then 0 else 1 + FirstYes(answers[1..])
  }

  class Pool {
    const stacks: array<nat>
    var count: nat

    ghost predicate Valid()
      reads this
    {
      count <= stacks.Length
    }

    ghost function Free(): seq<nat>
      requires Valid()
      reads this, stacks
    {
      stacks[..count]
    }

    constructor (size: nat)
      ensures Valid() && stacks.Length == size && count == size && fresh(stacks)
      ensures Distinct(Free()) && forall s: nat :: s in Free() <==> s < size
    {
      stacks := new nat[size](i requires 0 <= i => i);
      count := size;
      new;
      forall s: nat | s < size ensures s in Free() { assert Free()[s] == s; }
    }

    /** The first free stack whose last user is found gone: swap and pop. Slot `i` is tested
        after slot `i - 1`, and threads exit in between, so each slot has its own answer. */
    method Get(answers: seq<bool>) returns (stack: Option<nat>)
      requires Valid() && |answers| == count
      modifies this`count, stacks
      ensures Valid()
      ensures var i := FirstYes(answers);
        if i < |answers| then stack == Some(old(Free())[i]) && Free() == Taken(old(Free()), i)
        else stack == None && Free() == old(Free())
    {
      hide Taken;
      ghost var free := Free();
      for i := 0 to count
        invariant Valid() && Free() == free && |free| == count == |answers|
        invariant forall k :: 0 <= k < i ==> !answers[k]
      {
        if answers[i] {
          var s := stacks[i];
          YesAt(answers, i);
          count := count - 1;
          stacks[i] := stacks[count];
          TakenIs(free, i);
          assert Free() == free[i := free[|free| - 1]][..|free| - 1];
          return Some(s);
        }
      }
      return None;
    }

    /** The pool must not be full: that is what the invariant of the whole system gives. */
    method Release(stack: nat)
      requires Valid() && count < stacks.Length
      modifies this`count, stacks
      ensures Valid() && Free() == old(Free()) + [stack]
    {
      stacks[count] := stack;
      count := count + 1;
    }
  }

  lemma TakenIs(free: seq<nat>, i: nat)
    requires i < |free|
    ensures Taken(free, i) == free[i := free[|free| - 1]][..|free| - 1]
  {
  }

  lemma YesAt(answers: seq<bool>, i: nat)
    requires i < |answers| && answers[i] && forall k :: 0 <= k < i ==> !answers[k]
    ensures FirstYes(answers) == i
  {
    assert !(FirstYes(answers) < i);
  }

  // ---- the system ------------------------------------------------------------------------------

  /** What a living connection thread has done. */
  datatype Phase = Started | Attached | Uncounted | Released

  datatype Thread = Thread(stack: nat, phase: Phase)

  /** What the acceptor is in the middle of. */
  datatype Acceptor = Idle | Holding(stack: nat) | Counted(stack: nat) | Abandoning(stack: nat) | Returning(stack: nat)

  type Tid = nat

  datatype System = System(
    free: seq<nat>, last: map<nat, Tid>, active: int, acceptor: Acceptor, threads: map<Tid, Thread>)

  datatype Step =
    | Take(i: nat)
    | Count
    | Start(tid: Tid)
    | StartFails
    | AbandonCount
    | Return
    | Attach(tid: Tid)
    | Uncount(tid: Tid)
    | Release(tid: Tid)
    | Exit(tid: Tid)

  /** A stack may be given out when nobody used it yet or its last user is dead. The search
      tests one slot after the other under the mutex, which exiting threads do not take: the
      stack it takes is eligible when it is tested, and need not be the first that is. */
  ghost predicate Eligible(sys: System, s: nat) {
    s in sys.last ==> sys.last[s] !in sys.threads
  }

  ghost predicate Enabled(sys: System, step: Step) {
    match step
    case Take(i) => sys.acceptor.Idle? && i < |sys.free| && Eligible(sys, sys.free[i])
    case Count => sys.acceptor.Holding?
    case Start(tid) => sys.acceptor.Counted? && tid !in sys.threads
    case StartFails => sys.acceptor.Counted?
    case AbandonCount => sys.acceptor.Abandoning?
    case Return => sys.acceptor.Returning?
    case Attach(tid) => tid in sys.threads && sys.threads[tid].phase == Started
    case Uncount(tid) => tid in sys.threads && sys.threads[tid].phase == Attached
    case Release(tid) => tid in sys.threads && sys.threads[tid].phase == Uncounted
    case Exit(tid) => tid in sys.threads && sys.threads[tid].phase == Released
  }

  ghost function Stepped(sys: System, step: Step): System
    requires Enabled(sys, step)
  {
    match step
    case Take(i) =>
      sys.(free := Taken(sys.free, i), acceptor := Holding(sys.free[i]))
    case Count => sys.(active := sys.active + 1, acceptor := Counted(sys.acceptor.stack))
    case Start(tid) => sys.(acceptor := Idle, threads := sys.threads[tid := Thread(sys.acceptor.stack, Started)])
    case StartFails => sys.(acceptor := Abandoning(sys.acceptor.stack))
    case AbandonCount => sys.(active := sys.active - 1, acceptor := Returning(sys.acceptor.stack))
    case Return => sys.(free := sys.free + [sys.acceptor.stack], acceptor := Idle)
    case Attach(tid) =>
      sys.(last := sys.last[sys.threads[tid].stack := tid],
        threads := sys.threads[tid := sys.threads[tid].(phase := Attached)])
    case Uncount(tid) => sys.(active := sys.active - 1,
      threads := sys.threads[tid := sys.threads[tid].(phase := Uncounted)])
    case Release(tid) =>
      sys.(free := sys.free + [sys.threads[tid].stack],
        threads := sys.threads[tid := sys.threads[tid].(phase := Released)])
    case Exit(tid) => sys.(threads := sys.threads - {tid})
  }

  type Threads = map<Tid, Thread>

  predicate HeldBy(threads: Threads, t: Tid, s: nat) {
    t in threads && threads[t].phase != Released && threads[t].stack == s
  }

  ghost predicate Held(threads: Threads, s: nat) {
    exists t :: HeldBy(threads, t, s)
  }

  predicate AcceptorHolds(acceptor: Acceptor, s: nat) {
    !acceptor.Idle? && acceptor.stack == s
  }

  predicate OneOf(a: bool, b: bool, c: bool) {
    (a && !b && !c) || (!a && b && !c) || (!a && !b && c)
  }

  /** Each stack is free, in the acceptor's hands, or a connection's: one of the three. */
  ghost predicate Accounted(sys: System, size: nat) {
    && Distinct(sys.free)
    && (forall s :: s in sys.free ==> s < size)
    && (!sys.acceptor.Idle? ==> sys.acceptor.stack < size)
    && (forall t :: t in sys.threads ==> sys.threads[t].stack < size)
    && (forall s: nat :: s < size ==> OneOf(s in sys.free, AcceptorHolds(sys.acceptor, s), Held(sys.threads, s)))
  }

  /** No two living threads share a stack, and nobody lives on the one the acceptor holds. */
  ghost predicate Apart(threads: Threads, acceptor: Acceptor) {
    && (forall t, u :: t in threads && u in threads && t != u ==> threads[t].stack != threads[u].stack)
    && (forall t :: t in threads ==> !AcceptorHolds(acceptor, threads[t].stack))
  }

  /** A thread past its first instruction is on record as the last user of its stack. */
  ghost predicate OnRecord(threads: Threads, last: map<nat, Tid>) {
    forall t :: t in threads && threads[t].phase != Started ==> threads[t].stack in last && last[threads[t].stack] == t
  }

  predicate IsCounted(thread: Thread) {
    thread.phase == Started || thread.phase == Attached
  }

  ghost function CountedThreads(threads: Threads): set<Tid> {
    set t | t in threads && IsCounted(threads[t])
  }

  /** The counter is the number of connections between increment and decrement. */
  ghost predicate Tallied(active: int, threads: Threads, acceptor: Acceptor) {
    active == |CountedThreads(threads)| + if acceptor.Counted? || acceptor.Abandoning? then 1 else 0
  }

  ghost predicate Invariant(sys: System, size: nat) {
    && Accounted(sys, size) && Apart(sys.threads, sys.acceptor) && OnRecord(sys.threads, sys.last)
    && Tallied(sys.active, sys.threads, sys.acceptor)
  }

  function Initially(size: nat): System {
    System(seq(size, i requires 0 <= i < size => i), map[], 0, Idle, map[])
  }

  lemma StartHolds(size: nat)
    ensures Invariant(Initially(size), size)
  {
    var sys := Initially(size);
    assert CountedThreads(sys.threads) == {};
    forall s: nat | s < size ensures s in sys.free { assert sys.free[s] == s; }
  }

  // ---- what a change of the threads does to who holds what ---------------------------------------------

  /** From one phase of holding to another. */
  lemma StillHeld(threads: Threads, tid: Tid, phase: Phase, s: nat)
    requires tid in threads && threads[tid].phase != Released && phase != Released
    ensures Held(threads[tid := Thread(threads[tid].stack, phase)], s) <==> Held(threads, s)
  {
    var after := threads[tid := Thread(threads[tid].stack, phase)];
    if t :| HeldBy(threads, t, s) { assert HeldBy(after, t, s); }
    if t :| HeldBy(after, t, s) { assert HeldBy(threads, t, s); }
  }

  lemma NewlyHeld(threads: Threads, tid: Tid, stack: nat, s: nat)
    requires tid !in threads
    ensures Held(threads[tid := Thread(stack, Started)], s) <==> Held(threads, s) || s == stack
  {
    var after := threads[tid := Thread(stack, Started)];
    if t :| HeldBy(threads, t, s) { assert HeldBy(after, t, s); }
    if s == stack { assert HeldBy(after, tid, s); }
    if t :| HeldBy(after, t, s) { assert t != tid ==> HeldBy(threads, t, s); }
  }

  lemma NoLongerHeld(threads: Threads, acceptor: Acceptor, tid: Tid, s: nat)
    requires tid in threads && Apart(threads, acceptor)
    ensures Held(threads[tid := Thread(threads[tid].stack, Released)], s) <==>
      Held(threads, s) && s != threads[tid].stack
  {
    var after := threads[tid := Thread(threads[tid].stack, Released)];
    if t :| HeldBy(after, t, s) { assert t != tid && HeldBy(threads, t, s); }
    if t :| HeldBy(threads, t, s) { assert s != threads[tid].stack ==> HeldBy(after, t, s); }
  }

  lemma GoneWithoutHolding(threads: Threads, tid: Tid, s: nat)
    requires tid in threads && threads[tid].phase == Released
    ensures Held(threads - {tid}, s) <==> Held(threads, s)
  {
    if t :| HeldBy(threads, t, s) { assert HeldBy(threads - {tid}, t, s); }
    if t :| HeldBy(threads - {tid}, t, s) { assert HeldBy(threads, t, s); }
  }

  // ---- the steps ---------------------------------------------------------------------------------------------

  lemma TakeKeeps(sys: System, size: nat, i: nat)
    requires Invariant(sys, size) && Enabled(sys, Take(i))
    ensures Invariant(Stepped(sys, Take(i)), size)
  {
    hide Taken, Distinct, Held, OnRecord, Tallied;
    var given := sys.free[i];
    assert given in sys.free;
    var after := Stepped(sys, Take(i));
    TakenHolds(sys.free, i, 0);
    forall s: nat ensures s in after.free <==> s in sys.free && s != given { TakenHolds(sys.free, i, s); }
    assert Apart(after.threads, after.acceptor) by { NobodyLivesThere(sys, given, size); }
    assert Tallied(after.active, after.threads, after.acceptor) by { SameTally(sys, after); }
  }

  lemma SameTally(sys: System, after: System)
    requires Tallied(sys.active, sys.threads, sys.acceptor)
    requires CountedThreads(after.threads) == CountedThreads(sys.threads)
    requires after.active - (if after.acceptor.Counted? || after.acceptor.Abandoning? then 1 else 0)
      == sys.active - (if sys.acceptor.Counted? || sys.acceptor.Abandoning? then 1 else 0)
    ensures Tallied(after.active, after.threads, after.acceptor)
  {
  }

  /** An eligible free stack has no living thread on it. */
  lemma NobodyLivesThere(sys: System, s: nat, size: nat)
    requires Invariant(sys, size) && s in sys.free && Eligible(sys, s)
    ensures forall t :: t in sys.threads ==> sys.threads[t].stack != s
  {
    forall t | t in sys.threads ensures sys.threads[t].stack != s {
      if sys.threads[t].stack == s && sys.threads[t].phase != Released { assert HeldBy(sys.threads, t, s); }
    }
  }

  lemma CountingKeeps(sys: System, size: nat, step: Step)
    requires Invariant(sys, size) && Enabled(sys, step) && (step.Count? || step.StartFails? || step.AbandonCount?)
    ensures Invariant(Stepped(sys, step), size)
  {
    hide Distinct, Held, OnRecord, Tallied;
    SameTally(sys, Stepped(sys, step));
  }

  lemma Appended(free: seq<nat>, stack: nat)
    requires Distinct(free) && stack !in free
    ensures Distinct(free + [stack]) && forall s: nat :: s in free + [stack] <==> s in free || s == stack
  {
    var after := free + [stack];
    forall i, j | 0 <= i < j < |after| ensures after[i] != after[j] {
      assert after[i] in free;
    }
  }

  lemma ReturnKeeps(sys: System, size: nat)
    requires Invariant(sys, size) && Enabled(sys, Return)
    ensures Invariant(Stepped(sys, Return), size)
  {
    hide Distinct, Held, OnRecord, Tallied;
    assert AcceptorHolds(sys.acceptor, sys.acceptor.stack);
    Appended(sys.free, sys.acceptor.stack);
    SameTally(sys, Stepped(sys, Return));
  }

  lemma ReleaseKeeps(sys: System, size: nat, tid: Tid)
    requires Invariant(sys, size) && Enabled(sys, Step.Release(tid))
    ensures Invariant(Stepped(sys, Step.Release(tid)), size)
  {
    hide Distinct, Held, Tallied;
    var after := Stepped(sys, Step.Release(tid));
    var stack := sys.threads[tid].stack;
    HoldersHold(sys.threads, tid);
    Appended(sys.free, stack);
    forall s: nat ensures Held(after.threads, s) <==> Held(sys.threads, s) && s != stack {
      NoLongerHeld(sys.threads, sys.acceptor, tid, s);
    }
    assert CountedThreads(after.threads) == CountedThreads(sys.threads);
    SameTally(sys, after);
  }

  lemma HoldersHold(threads: Threads, tid: Tid)
    requires tid in threads && threads[tid].phase != Released
    ensures Held(threads, threads[tid].stack)
  {
    assert HeldBy(threads, tid, threads[tid].stack);
  }

  lemma StartKeeps(sys: System, size: nat, tid: Tid)
    requires Invariant(sys, size) && Enabled(sys, Start(tid))
    ensures Invariant(Stepped(sys, Start(tid)), size)
  {
    hide Distinct, Held, CountedThreads;
    var after := Stepped(sys, Start(tid));
    var stack := sys.acceptor.stack;
    assert AcceptorHolds(sys.acceptor, stack);
    forall s: nat ensures Held(after.threads, s) <==> Held(sys.threads, s) || s == stack {
      NewlyHeld(sys.threads, tid, stack, s);
    }
    OneMore(sys.threads, tid, stack);
  }

  lemma OneMore(threads: Threads, tid: Tid, stack: nat)
    requires tid !in threads
    ensures |CountedThreads(threads[tid := Thread(stack, Started)])| == |CountedThreads(threads)| + 1
  {
    assert CountedThreads(threads[tid := Thread(stack, Started)]) == CountedThreads(threads) + {tid};
  }

  lemma OneFewer(threads: Threads, tid: Tid)
    requires tid in threads && threads[tid].phase == Attached
    ensures |CountedThreads(threads[tid := Thread(threads[tid].stack, Uncounted)])| == |CountedThreads(threads)| - 1
  {
    assert CountedThreads(threads) == CountedThreads(threads[tid := Thread(threads[tid].stack, Uncounted)]) + {tid};
  }

  lemma AttachKeeps(sys: System, size: nat, tid: Tid)
    requires Invariant(sys, size) && Enabled(sys, Attach(tid))
    ensures Invariant(Stepped(sys, Attach(tid)), size)
  {
    hide Distinct, Held, Tallied;
    var after := Stepped(sys, Attach(tid));
    forall s: nat ensures Held(after.threads, s) <==> Held(sys.threads, s) { StillHeld(sys.threads, tid, Attached, s); }
    assert CountedThreads(after.threads) == CountedThreads(sys.threads);
    SameTally(sys, after);
  }

  lemma UncountKeeps(sys: System, size: nat, tid: Tid)
    requires Invariant(sys, size) && Enabled(sys, Uncount(tid))
    ensures Invariant(Stepped(sys, Uncount(tid)), size)
  {
    hide Distinct, Held, CountedThreads;
    var after := Stepped(sys, Uncount(tid));
    forall s: nat ensures Held(after.threads, s) <==>
      Held(sys.threads, s) { StillHeld(sys.threads, tid, Uncounted, s); }
    OneFewer(sys.threads, tid);
  }

  lemma ExitKeeps(sys: System, size: nat, tid: Tid)
    requires Invariant(sys, size) && Enabled(sys, Exit(tid))
    ensures Invariant(Stepped(sys, Exit(tid)), size)
  {
    hide Distinct, Held, Tallied;
    var after := Stepped(sys, Exit(tid));
    forall s: nat ensures Held(after.threads, s) <==> Held(sys.threads, s) { GoneWithoutHolding(sys.threads, tid, s); }
    assert CountedThreads(after.threads) == CountedThreads(sys.threads);
    SameTally(sys, after);
  }

  /** Every step of every thread keeps the books. */
  lemma StepKeeps(sys: System, size: nat, step: Step)
    requires Invariant(sys, size) && Enabled(sys, step)
    ensures Invariant(Stepped(sys, step), size)
  {
    hide Invariant, Stepped, Enabled;
    match step
    case Take(i) => TakeKeeps(sys, size, i);
    case Return => ReturnKeeps(sys, size);
    case Release(tid) => ReleaseKeeps(sys, size, tid);
    case Start(tid) => StartKeeps(sys, size, tid);
    case Attach(tid) => AttachKeeps(sys, size, tid);
    case Uncount(tid) => UncountKeeps(sys, size, tid);
    case Exit(tid) => ExitKeeps(sys, size, tid);
    case _ => CountingKeeps(sys, size, step);
  }

  ghost predicate Possible(sys: System, steps: seq<Step>)
    decreases |steps|
  {
    steps == [] || (Enabled(sys, steps[0]) && Possible(Stepped(sys, steps[0]), steps[1..]))
  }

  ghost function After(sys: System, steps: seq<Step>): System
    requires Possible(sys, steps)
    decreases |steps|
  {
    if steps == [] then sys else After(Stepped(sys, steps[0]), steps[1..])
  }

  lemma {:induction false} EveryInterleavingKeeps(sys: System, size: nat, steps: seq<Step>)
    requires Invariant(sys, size) && Possible(sys, steps)
    ensures Invariant(After(sys, steps), size)
    decreases |steps|
  {
    hide Invariant, Stepped, Enabled;
    if steps != [] {
      StepKeeps(sys, size, steps[0]);
      EveryInterleavingKeeps(Stepped(sys, steps[0]), size, steps[1..]);
    }
  }

  // ---- what the invariant means ---------------------------------------------------------------------

  ghost function Busy(free: seq<nat>, size: nat): set<nat> {
    set s: nat | s < size && s !in free
  }

  lemma {:induction false} Below(size: nat) returns (all: set<nat>)
    ensures |all| == size && forall s: nat :: s in all <==> s < size
    decreases size
  {
    if size == 0 { return {}; }
    var fewer := Below(size - 1);
    all := fewer + {size - 1};
  }

  lemma {:induction false} Members(free: seq<nat>) returns (all: set<nat>)
    requires Distinct(free)
    ensures |all| == |free| && forall s :: s in all <==> s in free
    decreases |free|
  {
    if free == [] { return {}; }
    var n := |free| - 1;
    var fewer := Members(free[..n]);
    all := fewer + {free[n]};
    assert free == free[..n] + [free[n]];
  }

  lemma BusyCount(free: seq<nat>, size: nat)
    requires Distinct(free) && forall s :: s in free ==> s < size
    ensures |Busy(free, size)| == size - |free|
  {
    var all := Below(size);
    var members := Members(free);
    assert Busy(free, size) == all - members;
    assert all == Busy(free, size) + members;
  }

  lemma {:induction false} OneStackEach(threads: Threads, acceptor: Acceptor, tids: set<Tid>) returns (stacks: set<nat>)
    requires Apart(threads, acceptor) && forall t :: t in tids ==> t in threads
    ensures |stacks| == |tids|
    ensures forall s :: s in stacks ==> exists t :: t in tids && threads[t].stack == s
    decreases |tids|
  {
    if tids == {} { return {}; }
    var t :| t in tids;
    var fewer := OneStackEach(threads, acceptor, tids - {t});
    stacks := fewer + {threads[t].stack};
    assert tids == (tids - {t}) + {t};
  }

  /** Whoever holds a stack keeps it out of the pool. */
  lemma HeldIsBusy(sys: System, size: nat, t: Tid)
    requires Accounted(sys, size) && t in sys.threads && sys.threads[t].phase != Released
    ensures sys.threads[t].stack in Busy(sys.free, size)
  {
    hide Distinct;
    HoldersHold(sys.threads, t);
  }

  /** The count never exceeds the stacks that are not free. */
  lemma CountWithinPool(sys: System, size: nat)
    requires Invariant(sys, size)
    ensures 0 <= sys.active <= size - |sys.free|
  {
    hide Held, OnRecord;
    BusyCount(sys.free, size);
    var stacks := OneStackEach(sys.threads, sys.acceptor, CountedThreads(sys.threads));
    forall s | s in stacks ensures s in Busy(sys.free, size) && !AcceptorHolds(sys.acceptor, s) {
      var t :| t in CountedThreads(sys.threads) && sys.threads[t].stack == s;
      HeldIsBusy(sys, size, t);
    }
    if sys.acceptor.Counted? || sys.acceptor.Abandoning? {
      assert AcceptorHolds(sys.acceptor, sys.acceptor.stack);
      SubsetIsSmaller(stacks + {sys.acceptor.stack}, Busy(sys.free, size));
    } else {
      SubsetIsSmaller(stacks, Busy(sys.free, size));
    }
  }

  /** Releasing never overruns the pool: whoever is about to release holds a stack that is not
      in it. */
  lemma ReleaseHasRoom(sys: System, size: nat, step: Step)
    requires Invariant(sys, size) && Enabled(sys, step) && (step.Return? || step.Release?)
    ensures |sys.free| < size
  {
    BusyCount(sys.free, size);
    if step.Release? {
      HeldIsBusy(sys, size, step.tid);
      SubsetIsSmaller({sys.threads[step.tid].stack}, Busy(sys.free, size));
    } else {
      assert AcceptorHolds(sys.acceptor, sys.acceptor.stack);
      SubsetIsSmaller({sys.acceptor.stack}, Busy(sys.free, size));
    }
  }

  /** From the empty system, in every interleaving: each stack is free once or held by exactly
      one party, no two living threads run on one stack, and the count stays within the pool. */
  lemma PoolIsSafe(size: nat, steps: seq<Step>)
    requires Possible(Initially(size), steps)
    ensures var sys := After(Initially(size), steps);
      Accounted(sys, size) && Apart(sys.threads, sys.acceptor) && 0 <= sys.active <= size - |sys.free|
  {
    hide Accounted, Apart, Tallied, OnRecord, Stepped, Enabled, Initially;
    StartHolds(size);
    EveryInterleavingKeeps(Initially(size), size, steps);
    CountWithinPool(After(Initially(size), steps), size);
  }

  // ---- without own stacks ---------------------------------------------------------------------------------

  /** The library's stacks: the acceptor tests the count, and only later increments it. */
  datatype Gate = Open | Admitted | Entering | Leaving

  datatype Lobby = Lobby(active: int, gate: Gate, running: nat)

  datatype Move = Test | Admit | Launch | LaunchFails | Undo | Finish

  predicate CanMove(lobby: Lobby, move: Move) {
    match move
    case Test => lobby.gate == Open
    case Admit => lobby.gate == Admitted
    case Launch => lobby.gate == Entering
    case LaunchFails => lobby.gate == Entering
    case Undo => lobby.gate == Leaving
    case Finish => lobby.running > 0
  }

  function Moved(lobby: Lobby, move: Move): Lobby
    requires CanMove(lobby, move)
  {
    match move
    case Test => if lobby.active >= MAX_COMMUNICATION_THREADS then lobby else lobby.(gate := Admitted)
    case Admit => lobby.(active := lobby.active + 1, gate := Entering)
    case Launch => lobby.(gate := Open, running := lobby.running + 1)
    case LaunchFails => lobby.(gate := Leaving)
    case Undo => lobby.(active := lobby.active - 1, gate := Open)
    case Finish => lobby.(active := lobby.active - 1, running := lobby.running - 1)
  }

  predicate CanMoveAll(lobby: Lobby, moves: seq<Move>)
    decreases |moves|
  {
    moves == [] || (CanMove(lobby, moves[0]) && CanMoveAll(Moved(lobby, moves[0]), moves[1..]))
  }

  function MovedAll(lobby: Lobby, moves: seq<Move>): Lobby
    requires CanMoveAll(lobby, moves)
    decreases |moves|
  {
    if moves == [] then lobby else MovedAll(Moved(lobby, moves[0]), moves[1..])
  }

  predicate WithinLimit(lobby: Lobby) {
    && lobby.active == lobby.running + (if lobby.gate == Entering || lobby.gate == Leaving then 1 else 0)
    && lobby.active <= MAX_COMMUNICATION_THREADS
    && (lobby.gate == Admitted ==> lobby.active < MAX_COMMUNICATION_THREADS)
  }

  lemma {:induction false} MovesKeepLimit(lobby: Lobby, moves: seq<Move>)
    requires WithinLimit(lobby) && CanMoveAll(lobby, moves)
    ensures WithinLimit(MovedAll(lobby, moves))
    decreases |moves|
  {
    if moves != [] {
      assert WithinLimit(Moved(lobby, moves[0]));
      MovesKeepLimit(Moved(lobby, moves[0]), moves[1..]);
    }
  }

  const EMPTY_LOBBY := Lobby(0, Open, 0)

  /** The test is not atomic with the increment, yet from the start the limit holds in every
      interleaving, and the count is that of the running connections and the one being let in:
      nobody but the acceptor increments. */
  lemma LimitHolds(moves: seq<Move>)
    requires CanMoveAll(EMPTY_LOBBY, moves)
    ensures var lobby := MovedAll(EMPTY_LOBBY, moves);
      lobby.running <= lobby.active <= lobby.running + 1 && lobby.active <= MAX_COMMUNICATION_THREADS
  {
    hide MovedAll;
    MovesKeepLimit(EMPTY_LOBBY, moves);
  }
}
