/** clientcore/src/movement_ledger.cpp: which server-reported moves answer which walk requests. */
module Ledger {
  import opened World
  import opened Viewport

  datatype Diagonal = Northeast | Southeast | Southwest | Northwest

  datatype WalkStep = Cardinal(direction: Direction) | Oblique(diagonal: Diagonal) {
    /** The field the step asks for. */
    function Apply(from: MapPosition): MapPosition {
      match this
      case Cardinal(direction) => StepPosition(from, direction)
      case Oblique(Northeast) => from.(x := from.x + 1, y := from.y - 1)
      case Oblique(Southeast) => from.(x := from.x + 1, y := from.y + 1)
      case Oblique(Southwest) => from.(x := from.x - 1, y := from.y + 1)
      case Oblique(Northwest) => from.(x := from.x - 1, y := from.y - 1)
    }
  }

  datatype Pending = Pending(id: nat, step: WalkStep, sentAt: real)

  datatype Tallies = Tallies(requested: nat, accepted: nat, rejected: nat, external: nat, unanswered: nat)

  const NO_TALLIES := Tallies(0, 0, 0, 0, 0)

  datatype Outcome = Accepted(id: nat, step: WalkStep) | External | NoMovement

  datatype Match = Matched(id: nat, step: WalkStep) | Unmatched

  datatype Books = Books(pending: seq<Pending>, counts: Tallies, nextId: nat)

  const EMPTY_BOOKS := Books([], NO_TALLIES, 0)

  // ---- the operations --------------------------------------------------------------------------

  function Requested(b: Books, step: WalkStep, at: real): Books {
    Books(b.pending + [Pending(b.nextId + 1, step, at)], b.counts.(requested := b.counts.requested + 1), b.nextId + 1)
  }

  /** A move is this client's own only when the oldest request outstanding asked for exactly it. */
  function OutcomeOf(b: Books, from: MapPosition, to: MapPosition): Outcome {
    if from == to then NoMovement
    else if b.pending != [] && b.pending[0].step.Apply(from) == to then Accepted(b.pending[0].id, b.pending[0].step)
    else External
  }

  function Moved(b: Books, from: MapPosition, to: MapPosition): Books {
    match OutcomeOf(b, from, to)
    case NoMovement => b
    case External => b.(counts := b.counts.(external := b.counts.external + 1))
    case Accepted(_, _) => b.(pending := b.pending[1..], counts := b.counts.(accepted := b.counts.accepted + 1))
  }

  function Snapped(b: Books): Books {
    var counts := b.counts.(rejected := b.counts.rejected + 1);
    if b.pending == [] then b.(counts := counts) else b.(pending := b.pending[1..], counts := counts)
  }

  function Lapsed(pending: seq<Pending>, deadline: real): (n: nat)
    ensures n <= |pending|
    ensures forall i :: 0 <= i < n ==> pending[i].sentAt < deadline
    ensures n < |pending| ==> pending[n].sentAt >= deadline
  {
    if pending != [] && pending[0].sentAt < deadline then 1 + Lapsed(pending[1..], deadline) else 0
  }

  function Expired(b: Books, deadline: real): Books {
    var n := Lapsed(b.pending, deadline);
    b.(pending := b.pending[n..], counts := b.counts.(unanswered := b.counts.unanswered + n))
  }

  // ---- the class ----------------------------------------------------------------------------------

  class MovementLedger {
    var pending: seq<Pending>
    var counts: Tallies
    var nextId: nat

    function State(): Books
      reads this
    {
      Books(pending, counts, nextId)
    }

    constructor ()
      ensures State() == EMPTY_BOOKS
    {
      pending, counts, nextId := [], NO_TALLIES, 0;
    }

    method NoteRequestSent(step: WalkStep, at: real) returns (id: nat)
      modifies this
      ensures State() == Requested(old(State()), step, at) && id == nextId
    {
      nextId := nextId + 1;
      pending := pending + [Pending(nextId, step, at)];
      counts := counts.(requested := counts.requested + 1);
      return nextId;
    }

    method NoteLocalMove(from: MapPosition, to: MapPosition) returns (outcome: Outcome)
      modifies this
      ensures State() == Moved(old(State()), from, to) && outcome == OutcomeOf(old(State()), from, to)
      ensures outcome.Accepted? <==> from != to && old(pending) != [] && old(pending)[0].step.Apply(from) == to
      ensures outcome.Accepted? ==> outcome.id == old(pending)[0].id && outcome.step == old(pending)[0].step
      ensures !outcome.Accepted? ==> pending == old(pending)
    {
      if from.x == to.x && from.y == to.y && from.z == to.z { return NoMovement; }
      if pending == [] {
        counts := counts.(external := counts.external + 1);
        return External;
      }
      var oldest := pending[0];
      if oldest.step.Apply(from) != to {
        counts := counts.(external := counts.external + 1);
        return External;
      }
      pending := pending[1..];
      counts := counts.(accepted := counts.accepted + 1);
      return Accepted(oldest.id, oldest.step);
    }

    method NoteSnapback() returns (m: Match)
      modifies this
      ensures State() == Snapped(old(State()))
      ensures m == if old(pending) == [] then Unmatched else Matched(old(pending)[0].id, old(pending)[0].step)
    {
      counts := counts.(rejected := counts.rejected + 1);
      if pending == [] { return Unmatched; }
      m := Matched(pending[0].id, pending[0].step);
      pending := pending[1..];
    }

    method ExpireBefore(deadline: real) returns (expired: nat)
      modifies this
      ensures State() == Expired(old(State()), deadline) && expired == Lapsed(old(pending), deadline)
    {
      ghost var was := State();
      expired := 0;
      assert pending[0..] == pending;
      while pending != [] && pending[0].sentAt < deadline
        invariant expired <= |was.pending| && pending == was.pending[expired..]
        invariant expired + Lapsed(pending, deadline) == Lapsed(was.pending, deadline)
        invariant counts == was.counts.(unanswered := was.counts.unanswered + expired) && nextId == was.nextId
        decreases |pending|
      {
        pending := pending[1..];
        counts := counts.(unanswered := counts.unanswered + 1);
        expired := expired + 1;
      }
    }

    method Reset()
      modifies this
      ensures State() == EMPTY_BOOKS
    {
      pending, counts, nextId := [], NO_TALLIES, 0;
    }
  }

  // ---- whole runs ------------------------------------------------------------------------------------

  datatype Note =
    | Ask(step: WalkStep, at: real)
    | Move(from: MapPosition, to: MapPosition)
    | Snapback
    | Deadline(before: real)
    | Restart

  datatype Verdict = Walked | Refused | Silent

  /** The terminal answer a request got. */
  datatype Answer = Answer(id: nat, verdict: Verdict)

  function Noted(b: Books, note: Note): Books {
    match note
    case Ask(step, at) => Requested(b, step, at)
    case Move(from, to) => Moved(b, from, to)
    case Snapback => Snapped(b)
    case Deadline(before) => Expired(b, before)
    case Restart => EMPTY_BOOKS
  }

  function Silenced(pending: seq<Pending>, n: nat): (answers: seq<Answer>)
    requires n <= |pending|
    ensures |answers| == n && forall i :: 0 <= i < n ==> answers[i] == Answer(pending[i].id, Silent)
  {
    seq(n, i requires 0 <= i < n => Answer(pending[i].id, Silent))
  }

  /** The answers a note brings. */
  function Answers(b: Books, note: Note): seq<Answer> {
    match note
    case Ask(_, _) => []
    case Restart => []
    case Move(from, to) => if OutcomeOf(b, from, to).Accepted? then [Answer(OutcomeOf(b, from, to).id, Walked)] else []
    case Snapback => if b.pending == [] then [] else [Answer(b.pending[0].id, Refused)]
    case Deadline(before) => Silenced(b.pending, Lapsed(b.pending, before))
  }

  function After(b: Books, notes: seq<Note>): Books
    decreases |notes|
  {
    if notes == [] then b else After(Noted(b, notes[0]), notes[1..])
  }

  /** The answers since the last restart, after one more note and after a run of them. */
  function Answered(answers: seq<Answer>, b: Books, note: Note): seq<Answer> {
    if note.Restart? then [] else answers + Answers(b, note)
  }

  function AllAnswered(answers: seq<Answer>, b: Books, notes: seq<Note>): seq<Answer>
    decreases |notes|
  {
    if notes == [] then answers else AllAnswered(Answered(answers, b, notes[0]), Noted(b, notes[0]), notes[1..])
  }

  function Ids(answers: seq<Answer>, pending: seq<Pending>): (ids: seq<nat>)
    ensures |ids| == |answers| + |pending|
  {
    seq(|answers|, i requires 0 <= i < |answers| => answers[i].id)
      + seq(|pending|, i requires 0 <= i < |pending| => pending[i].id)
  }

  function Tally(answers: seq<Answer>, verdict: Verdict): nat {
    if answers == [] then 0
    else Tally(answers[..|answers| - 1], verdict) + if answers[|answers| - 1].verdict == verdict then 1 else 0
  }

  /** Answered ids, then pending ids: together every id issued since the last restart, once and
      in order. The counts are those of the answers. */
  ghost predicate Balanced(answers: seq<Answer>, b: Books) {
    && |answers| + |b.pending| == b.nextId
    && (forall i :: 0 <= i < |answers| ==> answers[i].id == i + 1)
    && (forall i :: 0 <= i < |b.pending| ==> b.pending[i].id == |answers| + i + 1)
    && b.counts.requested == b.nextId && b.counts.accepted == Tally(answers, Walked)
    && b.counts.unanswered == Tally(answers, Silent) && b.counts.rejected >= Tally(answers, Refused)
  }

  lemma {:induction false} TallyJoins(a: seq<Answer>, b: seq<Answer>, verdict: Verdict)
    ensures Tally(a + b, verdict) == Tally(a, verdict) + Tally(b, verdict)
    decreases |b|
  {
    if b == [] {
      assert a + b == a;
    } else {
      TallyJoins(a, b[..|b| - 1], verdict);
      assert (a + b)[..|a + b| - 1] == a + b[..|b| - 1];
    }
  }

  lemma {:induction false} TallySilenced(pending: seq<Pending>, n: nat, verdict: Verdict)
    requires n <= |pending|
    ensures Tally(Silenced(pending, n), verdict) == if verdict == Silent then n else 0
    decreases n
  {
    if n > 0 {
      TallySilenced(pending, n - 1, verdict);
      assert Silenced(pending, n)[..n - 1] == Silenced(pending, n - 1);
    }
  }

  lemma TallyFew(answers: seq<Answer>, verdict: Verdict)
    requires |answers| <= 1
    ensures Tally(answers, verdict) == if answers != [] && answers[0].verdict == verdict then 1 else 0
  {
    if answers != [] { assert answers[..0] == []; }
  }

  lemma NoteKeepsBalance(answers: seq<Answer>, b: Books, note: Note)
    requires Balanced(answers, b)
    ensures Balanced(Answered(answers, b, note), Noted(b, note))
  {
    hide Tally;
    NothingYet();
    var more := Answers(b, note);
    forall verdict ensures Tally(answers + more, verdict) == Tally(answers, verdict) + Tally(more, verdict) {
      TallyJoins(answers, more, verdict);
    }
    match note {
      case Deadline(before) =>
        var n := Lapsed(b.pending, before);
        TallySilenced(b.pending, n, Walked);
        TallySilenced(b.pending, n, Refused);
        TallySilenced(b.pending, n, Silent);
      case _ =>
        TallyFew(more, Walked);
        TallyFew(more, Refused);
        TallyFew(more, Silent);
    }
  }

  lemma {:induction false} RunKeepsBalance(answers: seq<Answer>, b: Books, notes: seq<Note>)
    requires Balanced(answers, b)
    ensures Balanced(AllAnswered(answers, b, notes), After(b, notes))
    decreases |notes|
  {
    hide Balanced, Answered, Noted;
    if notes != [] {
      NoteKeepsBalance(answers, b, notes[0]);
      RunKeepsBalance(Answered(answers, b, notes[0]), Noted(b, notes[0]), notes[1..]);
    }
  }

  lemma {:induction false} VerdictsAdd(answers: seq<Answer>)
    ensures Tally(answers, Walked) + Tally(answers, Refused) + Tally(answers, Silent) == |answers|
    decreases |answers|
  {
    if answers != [] { VerdictsAdd(answers[..|answers| - 1]); }
  }

  /** In every run from a fresh ledger, restarts included: since the last restart answer `i` is
      about request `i + 1`, the pending requests are the last ones issued, and every request is
      accepted, refused, unanswered or pending. */
  lemma EveryRequestIsAccountedFor(notes: seq<Note>)
    ensures var answers, b := AllAnswered([], EMPTY_BOOKS, notes), After(EMPTY_BOOKS, notes);
      && (forall i :: 0 <= i < |answers| ==> answers[i].id == i + 1)
      && (forall i :: 0 <= i < |b.pending| ==> b.pending[i].id == b.nextId - |b.pending| + i + 1)
      && b.counts.requested == b.counts.accepted + Tally(answers, Refused) + b.counts.unanswered + |b.pending|
  {
    hide AllAnswered, After, Tally;
    assert Balanced([], EMPTY_BOOKS) by { NothingYet(); }
    RunKeepsBalance([], EMPTY_BOOKS, notes);
    VerdictsAdd(AllAnswered([], EMPTY_BOOKS, notes));
  }

  lemma NothingYet()
    ensures Balanced([], EMPTY_BOOKS)
  {
  }
}
