/** The pipeline with its settlements cut at every await: the book answer and the four store operations.

    A user's signals still go one at a time, but the pieces of different users interleave freely. Such
    a run ends where a run of the pipeline ends in which every settlement is one atomic event, and the
    bounds that hold of the atomic runs hold of the stores after every piece. */
module InterleavedPipeline {
  import opened Domain
  import opened Sums
  import opened PositionMath
  import opened PaperFiller
  import opened RiskEngine
  import opened Ledgers
  import Execution
  import ConcurrentApply
  import opened IntentStream
  import opened Pipeline
  import Solvency
  import PositionCap
  import ExposureCap

  /** What the book provider answers, with the fresh ids of the order and the fill. */
  datatype Reply = Reply(book: Option<BookSnapshot>, orderId: Id, fillId: Id)

  /** Approved intents not yet submitted, the executor, and the reconciler with its stores. Each user
      has one task and one call, named after the user. */
  datatype Floor = Floor(approved: map<Id, Intent>, desk: Execution.Desk, apply: ConcurrentApply.State) {
    predicate Busy(u: Id) {
      u in approved || u in desk.waiting || u in apply.calls
    }

    /** No settlement is under way. */
    predicate AtRest() {
      desk.waiting == map[] && apply.calls == map[]
    }

    function Stores(): Ledger {
      apply.stores
    }
  }

  datatype Piece =
    | Evaluated(signal: Signal, quotes: Quotes, intentId: Id)
    | Admitted(userId: Id)
    | Answered(userId: Id, reply: Reply)
    | Resumed(userId: Id)

  function Open(l: Ledger): Floor {
    Floor(map[], Execution.IDLE, ConcurrentApply.Initial(l))
  }

  function FillFor(i: Intent, r: Reply): Option<Fill> {
    Execution.Execute(i, r.book, r.orderId, r.fillId).fill
  }

  /** One atomic piece; a piece that is not possible changes nothing. */
  ghost function Move(gates: seq<Gate>, s: Floor, p: Piece): Floor {
    match p
    case Evaluated(signal, quotes, intentId) =>
      var u := signal.userId;
      if s.Busy(u) then s
      else
        var r := Verdict(gates, signal, ContextOf(s.Stores(), u, quotes), intentId);
        if r.Approved() then s.(approved := s.approved[u := r.intent]) else s
    case Admitted(u) =>
      if u !in s.approved then s
      else
        var desk := Execution.Step(s.desk, Execution.Submit(u, s.approved[u]));
        s.(approved := s.approved - {u}, desk := desk)
    case Answered(u, r) =>
      if u !in s.desk.waiting then s
      else
        var desk := Execution.Step(s.desk, Execution.Answer(u, r.book, r.orderId, r.fillId));
        var fill := desk.executed[|desk.executed| - 1].result.fill;
        var apply :=
          if fill.None? then s.apply else ConcurrentApply.Step(s.apply, ConcurrentApply.Begin(u, fill.value));
        s.(desk := desk, apply := apply)
    case Resumed(u) =>
      s.(apply := ConcurrentApply.Step(s.apply, ConcurrentApply.Resume(u)))
  }

  ghost function Moves(gates: seq<Gate>, s: Floor, ps: seq<Piece>): Floor {
    if ps == [] then s else Move(gates, Moves(gates, s, ps[..|ps| - 1]), ps[|ps| - 1])
  }

  // ----- The atomic run --------------------------------------------------------------------------

  /** The replies that the waiting tasks are going to get; a task without one gets no book. */
  type Replies = map<Id, Reply>

  function ReplyTo(replies: Replies, u: Id): Reply {
    if u in replies then replies[u] else Reply(None, 0, 0)
  }

  /** The atomic run that a run of pieces amounts to: a settlement happens where its intent is admitted,
      with the reply that comes later. */
  ghost function Atomic(gates: seq<Gate>, l: Ledger, ps: seq<Piece>, replies: Replies): seq<Event> {
    if ps == [] then []
    else
      var init := ps[..|ps| - 1];
      var s := Moves(gates, Open(l), init);
      match ps[|ps| - 1]
      case Evaluated(signal, quotes, intentId) =>
        Atomic(gates, l, init, replies) +
        (if s.Busy(signal.userId) then [] else [Signalled(signal, quotes, intentId)])
      case Admitted(u) =>
        var r := ReplyTo(replies, u);
        Atomic(gates, l, init, replies) +
        (if u in s.approved then [Settled(u, r.book, r.orderId, r.fillId)] else [])
      case Answered(u, r) =>
        Atomic(gates, l, init, if u in s.desk.waiting then replies[u := r] else replies)
      case Resumed(_) =>
        Atomic(gates, l, init, replies)
  }

  // ----- One user's rows -------------------------------------------------------------------------

  /** Two ledgers hold the same for one user. */
  ghost predicate Agree(a: Ledger, b: Ledger, u: Id) {
    && (forall k: Key :: k.userId == u ==> SameRow(a, b, k))
    && SameBalance(a, b, u)
  }

  lemma AgreeAfterFill(a: Ledger, b: Ledger, f: Fill, u: Id)
    requires Agree(a, b, u)
    ensures f.userId == u ==> Agree(ApplyFill(a, f), ApplyFill(b, f), u)
    ensures f.userId != u ==> Agree(a, ApplyFill(b, f), u)
  {
    hide Absorb, ApplyFillToBalance;
    assert f.userId == u ==> SameRow(a, b, KeyOf(f));
    if f.userId == u {
      forall k: Key | k.userId == u
        ensures SameRow(ApplyFill(a, f), ApplyFill(b, f), k)
      {
        assert SameRow(a, b, k);
      }
    } else {
      forall k: Key | k.userId == u
        ensures SameRow(a, ApplyFill(b, f), k)
      {
        assert SameRow(a, b, k);
      }
    }
  }

  function RowsOf(rows: map<Key, Position>, u: Id): map<Key, Position> {
    map k | k in rows && k.userId == u :: rows[k]
  }

  /** Exposure is a matter of the user's own rows. */
  lemma {:induction false} ExposureOfOwnRows(rows: map<Key, Position>, u: Id)
    ensures SumMap(rows, LongCost(u)) == SumMap(RowsOf(rows, u), LongCost(u))
    decreases |rows|
  {
    hide SumMap, CostOfLong;
    if k :| k in rows && k.userId != u {
      SumMapRemove(rows, LongCost(u), k);
      ExposureOfOwnRows(rows - {k}, u);
      assert RowsOf(rows - {k}, u) == RowsOf(rows, u);
    } else {
      assert RowsOf(rows, u) == rows;
    }
  }

  lemma AgreeOnExposure(a: Ledger, b: Ledger, u: Id)
    requires forall k: Key :: k.userId == u ==> SameRow(a, b, k)
    ensures Exposure(a, u) == Exposure(b, u)
  {
    hide SumMap, LongCost;
    forall k: Key
      ensures k in RowsOf(a.positions, u) <==> k in RowsOf(b.positions, u)
      ensures k in RowsOf(a.positions, u) ==> RowsOf(a.positions, u)[k] == RowsOf(b.positions, u)[k]
    {
      assert k.userId == u ==> SameRow(a, b, k);
    }
    assert RowsOf(a.positions, u) == RowsOf(b.positions, u);
    ExposureOfOwnRows(a.positions, u);
    ExposureOfOwnRows(b.positions, u);
  }

  /** The gates see no difference. */
  lemma AgreeOnContext(a: Ledger, b: Ledger, u: Id, quotes: Quotes)
    requires Agree(a, b, u)
    ensures ContextOf(a, u, quotes) == ContextOf(b, u, quotes)
  {
    hide Exposure;
    AgreeOnExposure(a, b, u);
    forall k: Key
      ensures k in SizesOf(a, u) <==> k in SizesOf(b, u)
      ensures k in SizesOf(a, u) ==> SizesOf(a, u)[k] == SizesOf(b, u)[k]
    {
      assert k.userId == u ==> SameRow(a, b, k);
    }
    assert SizesOf(a, u) == SizesOf(b, u);
  }

  // ----- What is still to come -------------------------------------------------------------------

  /** The stores once a call has ended undisturbed. */
  function Completed(stores: Ledger, c: ConcurrentApply.Call): Ledger {
    var f := c.fill;
    var paid := (prior: real) => ApplyFillToBalance(prior, f.side, f.size, f.price, f.fee);
    match c.stage
    case GetPosition => ApplyFill(stores, f)
    case UpsertPosition(row) =>
      stores.(positions := stores.positions[KeyOf(f) := row],
              balances := stores.balances[f.userId := paid(BalanceOf(stores, f.userId))])
    case GetBalance => stores.(balances := stores.balances[f.userId := paid(BalanceOf(stores, f.userId))])
    case UpsertBalance(prior) => stores.(balances := stores.balances[f.userId := paid(prior)])
  }

  function Filled(l: Ledger, fill: Option<Fill>): Ledger {
    if fill.None? then l else ApplyFill(l, fill.value)
  }

  /** The stores once one user's settlement under way, if any, has ended. */
  function Expected(s: Floor, replies: Replies, u: Id): Ledger {
    if u in s.desk.waiting then Filled(s.Stores(), FillFor(s.desk.waiting[u], ReplyTo(replies, u)))
    else if u in s.apply.calls then Completed(s.Stores(), s.apply.calls[u])
    else s.Stores()
  }

  /** Users own what is under way for them, and each is in one phase at a time. */
  ghost predicate WellFormed(s: Floor) {
    && (forall u :: u in s.approved ==> s.approved[u].userId == u)
    && (forall u :: u in s.desk.waiting ==> s.desk.waiting[u].userId == u && u !in s.approved)
    && (forall u :: u in s.apply.calls ==>
          s.apply.calls[u].fill.userId == u && u !in s.approved && u !in s.desk.waiting)
  }

  /** The pieces run so far and an atomic run agree, user by user, on what the stores are or will be. */
  ghost predicate Matches(s: Floor, replies: Replies, a: System) {
    && a.approved == s.approved
    && a.account.seen == s.desk.seen
    && (forall u :: Agree(Expected(s, replies, u), a.account.ledger, u))
  }

  lemma FillForNamesItsUser(i: Intent, r: Reply)
    ensures var f := FillFor(i, r); f.Some? ==> f.value.userId == i.userId
  {
    hide SimulateFill;
  }

  lemma MoveKeepsWellFormed(gates: seq<Gate>, s: Floor, p: Piece)
    requires WellFormed(s)
    ensures WellFormed(Move(gates, s, p))
  {
    hide Execution.Execute, Absorb, ApplyFillToBalance, Decisions, Exposure;
    match p
    case Evaluated(signal, quotes, intentId) =>
    case Admitted(u) =>
    case Answered(u, r) =>
      if u in s.desk.waiting {
        FillForNamesItsUser(s.desk.waiting[u], r);
      }
    case Resumed(u) =>
  }

  lemma EvaluatedMatches(
    gates: seq<Gate>, s: Floor, replies: Replies, a: System, signal: Signal, quotes: Quotes, intentId: Id)
    requires Matches(s, replies, a) && !s.Busy(signal.userId)
    ensures Matches(Move(gates, s, Evaluated(signal, quotes, intentId)), replies,
                    Next(gates, a, Signalled(signal, quotes, intentId)))
  {
    hide Verdict, ContextOf, Completed, Filled, FillFor, Agree;
    var u := signal.userId;
    assert Agree(Expected(s, replies, u), a.account.ledger, u);
    AgreeOnContext(s.Stores(), a.account.ledger, u, quotes);
    var t := Move(gates, s, Evaluated(signal, quotes, intentId));
    forall v: Id
      ensures Expected(t, replies, v) == Expected(s, replies, v)
    {
    }
  }

  lemma AdmittedMatches(gates: seq<Gate>, s: Floor, replies: Replies, a: System, u: Id)
    requires WellFormed(s) && Matches(s, replies, a) && u in s.approved
    ensures var r := ReplyTo(replies, u);
            Matches(Move(gates, s, Admitted(u)), replies, Next(gates, a, Settled(u, r.book, r.orderId, r.fillId)))
  {
    hide Completed, Execution.Execute, ApplyFill, Agree, ContextOf, Verdict;
    var r, i := ReplyTo(replies, u), s.approved[u];
    var t, b := Move(gates, s, Admitted(u)), Next(gates, a, Settled(u, r.book, r.orderId, r.fillId));
    var f := FillFor(i, r);
    assert b.account.ledger == if i.signalId in s.desk.seen then a.account.ledger else Filled(a.account.ledger, f);
    forall v: Id
      ensures Agree(Expected(t, replies, v), b.account.ledger, v)
    {
      assert Agree(Expected(s, replies, v), a.account.ledger, v);
      if i.signalId !in s.desk.seen {
        FillForNamesItsUser(i, r);
        if f.Some? {
          AgreeAfterFill(Expected(s, replies, v), a.account.ledger, f.value, v);
        }
      }
    }
  }

  lemma AnsweredMatches(gates: seq<Gate>, s: Floor, replies: Replies, a: System, u: Id, r: Reply)
    requires WellFormed(s) && u in s.desk.waiting && Matches(s, replies[u := r], a)
    ensures Matches(Move(gates, s, Answered(u, r)), replies, a)
  {
    hide Execution.Execute, ApplyFill, Agree, Absorb, ContextOf, Verdict;
    var t := Move(gates, s, Answered(u, r));
    forall v: Id
      ensures Agree(Expected(t, replies, v), a.account.ledger, v)
    {
      assert Agree(Expected(s, replies[u := r], v), a.account.ledger, v);
      assert Expected(t, replies, v) == Expected(s, replies[u := r], v);
    }
  }

  /** A piece of a call leaves what the call will have done. */
  lemma CompletedStays(s: ConcurrentApply.State, u: Id)
    requires u in s.calls
    ensures var t := ConcurrentApply.Step(s, ConcurrentApply.Resume(u));
            (if u in t.calls then Completed(t.stores, t.calls[u]) else t.stores) == Completed(s.stores, s.calls[u])
  {
    hide Absorb, ApplyFillToBalance;
  }

  lemma OthersUndisturbed(s: ConcurrentApply.State, u: Id, v: Id)
    requires u in s.calls && s.calls[u].fill.userId == u && u != v
    ensures var t := ConcurrentApply.Step(s, ConcurrentApply.Resume(u));
            && Agree(t.stores, s.stores, v)
            && (v in t.calls <==> v in s.calls) && (v in s.calls ==> t.calls[v] == s.calls[v])
  {
    hide Absorb, ApplyFillToBalance;
  }

  lemma AgreeOnCompleted(a: Ledger, b: Ledger, c: ConcurrentApply.Call, u: Id)
    requires Agree(a, b, u) && c.fill.userId == u
    ensures Agree(Completed(a, c), Completed(b, c), u)
  {
    hide Absorb, ApplyFillToBalance, ApplyFill;
    if c.stage.GetPosition? {
      AgreeAfterFill(a, b, c.fill, u);
    } else {
      var x, y := Completed(a, c), Completed(b, c);
      forall k: Key | k.userId == u
        ensures SameRow(x, y, k)
      {
        assert SameRow(a, b, k);
      }
    }
  }

  lemma AgreeOnFilled(a: Ledger, b: Ledger, f: Option<Fill>, u: Id)
    requires Agree(a, b, u) && (f.Some? ==> f.value.userId == u)
    ensures Agree(Filled(a, f), Filled(b, f), u)
  {
    hide ApplyFill, Agree;
    if f.Some? {
      AgreeAfterFill(a, b, f.value, u);
    }
  }

  lemma AgreeTransitive(a: Ledger, b: Ledger, c: Ledger, u: Id)
    requires Agree(a, b, u) && Agree(b, c, u)
    ensures Agree(a, c, u)
  {
    forall k: Key | k.userId == u
      ensures SameRow(a, c, k)
    {
      assert SameRow(a, b, k) && SameRow(b, c, k);
    }
  }

  lemma ResumedMatches(gates: seq<Gate>, s: Floor, replies: Replies, a: System, u: Id)
    requires WellFormed(s) && Matches(s, replies, a) && u in s.apply.calls
    ensures Matches(Move(gates, s, Resumed(u)), replies, a)
  {
    hide Execution.Execute, ApplyFill, Agree, Absorb, Completed, Filled, ConcurrentApply.Step, ContextOf, Verdict;
    var t := Move(gates, s, Resumed(u));
    forall v: Id
      ensures Agree(Expected(t, replies, v), a.account.ledger, v)
    {
      assert Agree(Expected(s, replies, v), a.account.ledger, v);
      if v == u {
        CompletedStays(s.apply, u);
      } else {
        OthersUndisturbed(s.apply, u, v);
        if v in s.desk.waiting {
          FillForNamesItsUser(s.desk.waiting[v], ReplyTo(replies, v));
          AgreeOnFilled(t.Stores(), s.Stores(), FillFor(s.desk.waiting[v], ReplyTo(replies, v)), v);
        } else if v in s.apply.calls {
          AgreeOnCompleted(t.Stores(), s.Stores(), s.apply.calls[v], v);
        }
        AgreeTransitive(Expected(t, replies, v), Expected(s, replies, v), a.account.ledger, v);
      }
    }
  }

  // ----- Refinement ------------------------------------------------------------------------------

  lemma OpenMatches(l: Ledger, replies: Replies)
    ensures WellFormed(Open(l)) && Matches(Open(l), replies, Start(l))
  {
    forall u: Id
      ensures Agree(l, l, u)
    {
      forall k: Key ensures SameRow(l, l, k) {}
    }
  }

  lemma RunAppend(gates: seq<Gate>, s: System, es: seq<Event>, e: Event)
    ensures RunEvents(gates, s, es + [e]) == Next(gates, RunEvents(gates, s, es), e)
  {
    hide Next;
    assert (es + [e])[..|es + [e]| - 1] == es;
  }

  /** Every run of pieces matches its atomic run, whatever replies are still to come. */
  lemma {:induction false} PiecesMatchAtomicRun(gates: seq<Gate>, l: Ledger, ps: seq<Piece>, replies: Replies)
    ensures WellFormed(Moves(gates, Open(l), ps))
    ensures Matches(Moves(gates, Open(l), ps), replies,
                    RunEvents(gates, Start(l), Atomic(gates, l, ps, replies)))
    decreases |ps|
  {
    if ps == [] {
      OpenMatches(l, replies);
    } else {
      hide RunEvents, Next, WellFormed, Matches, Verdict, Execution.Step, ConcurrentApply.Step, FillFor, ContextOf;
      var init, p := ps[..|ps| - 1], ps[|ps| - 1];
      var s := Moves(gates, Open(l), init);
      PiecesMatchAtomicRun(gates, l, init, replies);
      MoveKeepsWellFormed(gates, s, p);
      var es := Atomic(gates, l, init, replies);
      assert es + [] == es;
      match p
      case Evaluated(signal, quotes, intentId) =>
        if !s.Busy(signal.userId) {
          EvaluatedMatches(gates, s, replies, RunEvents(gates, Start(l), es), signal, quotes, intentId);
          RunAppend(gates, Start(l), es, Signalled(signal, quotes, intentId));
        }
      case Admitted(u) =>
        if u in s.approved {
          var r := ReplyTo(replies, u);
          AdmittedMatches(gates, s, replies, RunEvents(gates, Start(l), es), u);
          RunAppend(gates, Start(l), es, Settled(u, r.book, r.orderId, r.fillId));
        }
      case Answered(u, r) =>
        if u in s.desk.waiting {
          PiecesMatchAtomicRun(gates, l, init, replies[u := r]);
          AnsweredMatches(gates, s, replies, RunEvents(gates, Start(l), Atomic(gates, l, init, replies[u := r])), u, r);
        }
      case Resumed(u) =>
        if u in s.apply.calls {
          ResumedMatches(gates, s, replies, RunEvents(gates, Start(l), es), u);
        } else {
          NothingToResume(gates, s, u);
        }
    }
  }

  lemma NothingToResume(gates: seq<Gate>, s: Floor, u: Id)
    requires u !in s.apply.calls
    ensures Move(gates, s, Resumed(u)) == s
  {
  }

  /** When no settlement is under way, the stores, the seen signals and the approvals are exactly those
      of a run with atomic settlements. */
  lemma RestIsAnAtomicRun(gates: seq<Gate>, l: Ledger, ps: seq<Piece>)
    requires Moves(gates, Open(l), ps).AtRest()
    ensures var s := Moves(gates, Open(l), ps);
            System(Account(s.Stores(), s.desk.seen), s.approved) ==
            RunEvents(gates, Start(l), Atomic(gates, l, ps, map[]))
  {
    hide Moves, RunEvents, Atomic;
    var s, a := Moves(gates, Open(l), ps), RunEvents(gates, Start(l), Atomic(gates, l, ps, map[]));
    PiecesMatchAtomicRun(gates, l, ps, map[]);
    forall k: Key
      ensures SameRow(s.Stores(), a.account.ledger, k)
    {
      assert Agree(Expected(s, map[], k.userId), a.account.ledger, k.userId);
    }
    forall u: Id
      ensures SameBalance(s.Stores(), a.account.ledger, u)
    {
      assert Agree(Expected(s, map[], u), a.account.ledger, u);
    }
    SameLedger(s.Stores(), a.account.ledger);
  }

  lemma {:induction false} MovesConcat(gates: seq<Gate>, s: Floor, ps: seq<Piece>, qs: seq<Piece>)
    ensures Moves(gates, s, ps + qs) == Moves(gates, Moves(gates, s, ps), qs)
    decreases |qs|
  {
    hide Move;
    if qs == [] {
      assert ps + qs == ps;
    } else {
      MovesConcat(gates, s, ps, qs[..|qs| - 1]);
      assert (ps + qs)[..|ps + qs| - 1] == ps + qs[..|qs| - 1];
    }
  }

  lemma MovesFromFirst(gates: seq<Gate>, s: Floor, p: Piece, ps: seq<Piece>)
    ensures Moves(gates, s, [p] + ps) == Moves(gates, Move(gates, s, p), ps)
  {
    hide Move;
    MovesConcat(gates, s, [p], ps);
    assert [p][..0] == [] && Moves(gates, s, []) == s;
  }

  function PiecesLeft(stage: ConcurrentApply.Stage): nat {
    match stage
    case GetPosition => 3
    case UpsertPosition(_) => 2
    case GetBalance => 1
    case UpsertBalance(_) => 0
  }

  lemma ResumingOne(gates: seq<Gate>, s: Floor, u: Id)
    requires u in s.apply.calls
    ensures var t := Move(gates, s, Resumed(u));
            && t.desk == s.desk && t.apply.calls - {u} == s.apply.calls - {u}
            && (u in t.apply.calls ==>
                  PiecesLeft(t.apply.calls[u].stage) < PiecesLeft(s.apply.calls[u].stage))
  {
    hide Absorb, ApplyFillToBalance;
  }

  lemma {:induction false} CallCanEnd(gates: seq<Gate>, s: Floor, u: Id) returns (more: seq<Piece>)
    requires u in s.apply.calls
    ensures var t := Moves(gates, s, more);
            t.desk == s.desk && t.apply.calls == s.apply.calls - {u}
    ensures forall p :: p in more ==> p == Resumed(u)
    decreases PiecesLeft(s.apply.calls[u].stage)
  {
    hide Move;
    var t := Move(gates, s, Resumed(u));
    ResumingOne(gates, s, u);
    var rest: seq<Piece> := [];
    if u in t.apply.calls {
      rest := CallCanEnd(gates, t, u);
    } else {
      assert t.apply.calls - {u} == t.apply.calls;
      assert Moves(gates, t, []) == t;
    }
    MovesFromFirst(gates, s, Resumed(u), rest);
    more := [Resumed(u)] + rest;
  }

  lemma AnsweringOne(gates: seq<Gate>, s: Floor, u: Id)
    requires u in s.desk.waiting
    ensures var t := Move(gates, s, Answered(u, Reply(None, 0, 0)));
            t.desk.waiting == s.desk.waiting - {u} && t.apply == s.apply
  {
  }

  /** Every state can come to rest by answers and store operations alone. */
  lemma {:induction false} CanComeToRest(gates: seq<Gate>, s: Floor) returns (more: seq<Piece>)
    ensures Moves(gates, s, more).AtRest()
    ensures forall p :: p in more ==> p.Answered? || p.Resumed?
    decreases |s.desk.waiting|, |s.apply.calls|
  {
    hide Move, Moves;
    if u :| u in s.desk.waiting {
      var first := Answered(u, Reply(None, 0, 0));
      AnsweringOne(gates, s, u);
      assert s.desk.waiting == (s.desk.waiting - {u})[u := s.desk.waiting[u]];
      var rest := CanComeToRest(gates, Move(gates, s, first));
      MovesFromFirst(gates, s, first, rest);
      more := [first] + rest;
    } else if u :| u in s.apply.calls {
      var first := CallCanEnd(gates, s, u);
      assert s.apply.calls == (s.apply.calls - {u})[u := s.apply.calls[u]];
      var rest := CanComeToRest(gates, Moves(gates, s, first));
      MovesConcat(gates, s, first, rest);
      more := first + rest;
    } else {
      more := [];
      NothingMoves(gates, s);
    }
  }

  lemma NothingMoves(gates: seq<Gate>, s: Floor)
    ensures Moves(gates, s, []) == s
  {
  }

  // ----- What the executor recorded is what the stores hold --------------------------------------

  /** The fills of the orders placed, in order. */
  function RecordedFills(executed: seq<Execution.Executed>): seq<Fill> {
    if executed == [] then []
    else
      var last := executed[|executed| - 1].result.fill;
      RecordedFills(executed[..|executed| - 1]) + (if last.None? then [] else [last.value])
  }

  /** An answer places one order, executed on the answered book, and begins the reconciliation of exactly
      the fill recorded with it, if there is one. */
  lemma AnswerBeginsTheRecordedFill(gates: seq<Gate>, s: Floor, u: Id, r: Reply)
    requires WellFormed(s) && u in s.desk.waiting
    ensures var t := Move(gates, s, Answered(u, r));
            && t.approved == s.approved && t.desk.waiting == s.desk.waiting - {u} && t.Stores() == s.Stores()
            && |t.desk.executed| == |s.desk.executed| + 1 && t.desk.executed[..|s.desk.executed|] == s.desk.executed
            && var x := t.desk.executed[|s.desk.executed|];
               && x.intent == s.desk.waiting[u]
               && Execution.Executes(x.result, x.intent, r.book, r.orderId, r.fillId)
               && t.apply.begun == s.apply.begun + (if x.result.fill.None? then [] else [x.result.fill.value])
               && t.apply.calls ==
                  if x.result.fill.None? then s.apply.calls
                  else s.apply.calls[u := ConcurrentApply.Call(x.result.fill.value, ConcurrentApply.GetPosition)]
  {
    hide Execution.Execute, Execution.Executes;
    Execution.AnswerRecordsTheExecution(s.desk, u, r.book, r.orderId, r.fillId);
  }

  /** Users in flight are distinct, every piece keeps the reconciler's invariant, and its calls are begun
      for the recorded fills and for no others. */
  ghost predicate Reconciles(s: Floor, l: Ledger) {
    ConcurrentApply.Inv(s.apply, l) && s.apply.begun == RecordedFills(s.desk.executed)
  }

  lemma CallsOfDistinctUsers(s: Floor)
    requires WellFormed(s)
    ensures ConcurrentApply.UsersDistinct(s.apply)
  {
  }

  lemma ResumeBeginsNothing(s: ConcurrentApply.State, u: Id)
    ensures ConcurrentApply.Step(s, ConcurrentApply.Resume(u)).begun == s.begun
  {
    hide Absorb, ApplyFillToBalance;
  }

  lemma RecordedAppend(executed: seq<Execution.Executed>, x: Execution.Executed)
    ensures RecordedFills(executed + [x]) ==
            RecordedFills(executed) + (if x.result.fill.None? then [] else [x.result.fill.value])
  {
    assert (executed + [x])[..|executed + [x]| - 1] == executed;
  }

  lemma MoveReconciles(gates: seq<Gate>, s: Floor, p: Piece, l: Ledger)
    requires WellFormed(s) && Reconciles(s, l)
    ensures Reconciles(Move(gates, s, p), l)
  {
    hide Execution.Execute, Execution.Executes, ConcurrentApply.Inv, Verdict, ContextOf, RecordedFills,
         ConcurrentApply.UsersDistinct, ConcurrentApply.Step;
    var t := Move(gates, s, p);
    MoveKeepsWellFormed(gates, s, p);
    CallsOfDistinctUsers(t);
    match p
    case Evaluated(_, _, _) =>
    case Admitted(_) =>
    case Answered(u, r) =>
      if u in s.desk.waiting {
        AnswerBeginsTheRecordedFill(gates, s, u, r);
        var x := t.desk.executed[|s.desk.executed|];
        assert t.desk.executed == s.desk.executed + [x];
        RecordedAppend(s.desk.executed, x);
        if x.result.fill.Some? {
          ConcurrentApply.StepKeepsInv(s.apply, l, ConcurrentApply.Begin(u, x.result.fill.value));
        }
      }
    case Resumed(u) =>
      ResumeBeginsNothing(s.apply, u);
      ConcurrentApply.StepKeepsInv(s.apply, l, ConcurrentApply.Resume(u));
  }

  lemma {:induction false} MovesReconcile(gates: seq<Gate>, l: Ledger, ps: seq<Piece>)
    ensures Reconciles(Moves(gates, Open(l), ps), l)
  {
    if ps == [] {
      ConcurrentApply.ExecNothing(ConcurrentApply.Initial(l));
      ConcurrentApply.ExecKeepsInv(l, []);
    } else {
      hide Move, Reconciles, WellFormed, Matches;
      MovesReconcile(gates, l, ps[..|ps| - 1]);
      PiecesMatchAtomicRun(gates, l, ps[..|ps| - 1], map[]);
      MoveReconciles(gates, Moves(gates, Open(l), ps[..|ps| - 1]), ps[|ps| - 1], l);
    }
  }

  /** When no settlement is under way, the stores are what the fills recorded by the executor, one after
      another, make of the opening ledger: each was reconciled once, and nothing else was. */
  lemma RestIsARunOfTheRecordedFills(gates: seq<Gate>, l: Ledger, ps: seq<Piece>)
    requires Moves(gates, Open(l), ps).AtRest()
    ensures var s := Moves(gates, Open(l), ps);
            s.Stores() == Run(l, RecordedFills(s.desk.executed))
  {
    hide Moves, RecordedFills, ConcurrentApply.Inv, Run;
    var s := Moves(gates, Open(l), ps);
    MovesReconcile(gates, l, ps);
    ConcurrentApply.RestIsSerial(s.apply, l, s.apply.begun);
  }

  // ----- One trade -------------------------------------------------------------------------------

  /** All the pieces of one trade of a user. */
  function TradePieces(signal: Signal, quotes: Quotes, intentId: Id, r: Reply): seq<Piece> {
    var u := signal.userId;
    [Evaluated(signal, quotes, intentId), Admitted(u), Answered(u, r), Resumed(u), Resumed(u), Resumed(u), Resumed(u)]
  }

  lemma MovesNext(gates: seq<Gate>, s: Floor, ps: seq<Piece>, n: nat)
    requires n < |ps|
    ensures Moves(gates, s, ps[..n + 1]) == Move(gates, Moves(gates, s, ps[..n]), ps[n])
  {
    hide Move;
    assert ps[..n + 1][..n] == ps[..n];
  }

  lemma TradeMoves(gates: seq<Gate>, s: Floor, signal: Signal, quotes: Quotes, intentId: Id, r: Reply)
    ensures var u := signal.userId;
            var a := Move(gates, s, Evaluated(signal, quotes, intentId));
            var b := Move(gates, Move(gates, a, Admitted(u)), Answered(u, r));
            Moves(gates, s, TradePieces(signal, quotes, intentId, r)) ==
            Move(gates, Move(gates, Move(gates, Move(gates, b, Resumed(u)), Resumed(u)), Resumed(u)), Resumed(u))
  {
    hide Move, Moves;
    var ps := TradePieces(signal, quotes, intentId, r);
    assert ps[..0] == [] && ps[..7] == ps;
    NothingMoves(gates, s);
    MovesNext(gates, s, ps, 0);
    MovesNext(gates, s, ps, 1);
    MovesNext(gates, s, ps, 2);
    MovesNext(gates, s, ps, 3);
    MovesNext(gates, s, ps, 4);
    MovesNext(gates, s, ps, 5);
    MovesNext(gates, s, ps, 6);
  }

  /** The four store operations of a call, as pieces of the floor. */
  lemma ReconcilingMoves(gates: seq<Gate>, s: Floor, u: Id, f: Fill)
    requires u !in s.apply.calls
    ensures var b := s.(apply := ConcurrentApply.Step(s.apply, ConcurrentApply.Begin(u, f)));
            Move(gates, Move(gates, Move(gates, Move(gates, b, Resumed(u)), Resumed(u)), Resumed(u)), Resumed(u)) ==
            s.(apply := ConcurrentApply.State(ApplyFill(s.Stores(), f), s.apply.calls,
                                              s.apply.begun + [f], s.apply.ended + [f]))
  {
    hide ConcurrentApply.Step, ConcurrentApply.Exec, ApplyFill;
    ConcurrentApply.WholeCallSteps(s.apply, u, f);
    ConcurrentApply.UninterruptedCallIsApplyFill(s.apply, u, f);
  }

  lemma IdleMoves(gates: seq<Gate>, s: Floor, u: Id)
    requires u !in s.apply.calls
    ensures Move(gates, Move(gates, Move(gates, Move(gates, s, Resumed(u)), Resumed(u)), Resumed(u)), Resumed(u)) == s
  {
    NothingToResume(gates, s, u);
  }

  /** A trade of an idle user that is not interrupted evaluates, submits and reconciles as the pipeline
      does, whatever is under way for other users, and leaves that alone. */
  lemma UninterruptedTrade(gates: seq<Gate>, s: Floor, signal: Signal, quotes: Quotes, intentId: Id, r: Reply)
    requires WellFormed(s) && !s.Busy(signal.userId)
    ensures var t := Moves(gates, s, TradePieces(signal, quotes, intentId, r));
            var before := Account(s.Stores(), s.desk.seen);
            var v := Verdict(gates, signal, ContextOf(s.Stores(), signal.userId, quotes), intentId);
            && Account(t.Stores(), t.desk.seen) ==
               (if v.Approved() then Process(before, v.intent, r.book, r.orderId, r.fillId) else before)
            && t.approved == s.approved && t.desk.waiting == s.desk.waiting && t.apply.calls == s.apply.calls
  {
    hide Verdict, ContextOf, Execution.Execute, ApplyFill, Moves, ConcurrentApply.Step;
    var u := signal.userId;
    TradeMoves(gates, s, signal, quotes, intentId, r);
    var a := Move(gates, s, Evaluated(signal, quotes, intentId));
    var b := Move(gates, a, Admitted(u));
    var c := Move(gates, b, Answered(u, r));
    var v := Verdict(gates, signal, ContextOf(s.Stores(), u, quotes), intentId);
    if v.Approved() && v.intent.signalId !in s.desk.seen {
      var fill := FillFor(v.intent, r);
      assert b.desk.waiting == s.desk.waiting[u := v.intent] && b.desk.waiting - {u} == s.desk.waiting;
      assert a.approved - {u} == s.approved;
      if fill.Some? {
        ReconcilingMoves(gates, c.(apply := s.apply), u, fill.value);
      } else {
        IdleMoves(gates, c, u);
      }
    } else {
      assert a.approved - {u} == s.approved;
      IdleMoves(gates, c, u);
    }
  }

  // ----- Safety after every piece ----------------------------------------------------------------

  /** A piece leaves a user's stored balance, or leaves it where it is expected to be. */
  lemma BalanceMovesToExpected(gates: seq<Gate>, s: Floor, p: Piece, u: Id)
    requires WellFormed(s)
    ensures var t := Move(gates, s, p);
            || BalanceOf(t.Stores(), u) == BalanceOf(s.Stores(), u)
            || BalanceOf(t.Stores(), u) == BalanceOf(Expected(t, map[], u), u)
  {
    hide Execution.Execute, Absorb, ApplyFillToBalance, ApplyFill, Decisions, Exposure;
  }

  /** The same of a user's stored rows. */
  lemma RowsMoveToExpected(gates: seq<Gate>, s: Floor, p: Piece, u: Id)
    requires WellFormed(s)
    ensures var t := Move(gates, s, p);
            || (forall k: Key :: k.userId == u ==> SameRow(t.Stores(), s.Stores(), k))
            || t.Stores().positions == Expected(t, map[], u).positions
  {
    hide Execution.Execute, Absorb, ApplyFillToBalance, ApplyFill, Decisions, Exposure;
  }

  /** The stored balance of every user is non-negative after every piece of every gated run. */
  lemma {:induction false} StoresStaySolvent(gates: seq<Gate>, l: Ledger, ps: seq<Piece>, feePct: real, u: Id)
    requires UsdcSufficient(feePct) in gates && PriceBounds in gates && feePct >= PAPER_FEE_PCT
    requires forall v :: 0.0 <= BalanceOf(l, v)
    ensures 0.0 <= BalanceOf(Moves(gates, Open(l), ps).Stores(), u)
  {
    if ps != [] {
      hide Move, Matches, WellFormed, Atomic, RunEvents;
      var s := Moves(gates, Open(l), ps[..|ps| - 1]);
      StoresStaySolvent(gates, l, ps[..|ps| - 1], feePct, u);
      PiecesMatchAtomicRun(gates, l, ps[..|ps| - 1], map[]);
      PiecesMatchAtomicRun(gates, l, ps, map[]);
      Solvency.GatedRunsStaySolvent(gates, l, Atomic(gates, l, ps, map[]), feePct, u);
      BalanceMovesToExpected(gates, s, ps[|ps| - 1], u);
      ExpectedBalance(Moves(gates, Open(l), ps), RunEvents(gates, Start(l), Atomic(gates, l, ps, map[])), u);
    }
  }

  lemma ExpectedBalance(s: Floor, a: System, u: Id)
    requires Matches(s, map[], a)
    ensures BalanceOf(Expected(s, map[], u), u) == BalanceOf(a.account.ledger, u)
  {
    assert Agree(Expected(s, map[], u), a.account.ledger, u);
  }

  lemma ExpectedRows(s: Floor, a: System, u: Id)
    requires Matches(s, map[], a)
    ensures forall k: Key :: k.userId == u ==> SameRow(Expected(s, map[], u), a.account.ledger, k)
  {
    assert Agree(Expected(s, map[], u), a.account.ledger, u);
  }

  /** Every stored position is within the cap after every piece of every gated run. */
  lemma {:induction false} StoresStayCapped(gates: seq<Gate>, l: Ledger, ps: seq<Piece>, cap: real, k: Key)
    requires PerMarketPositionCap(cap) in gates
    requires forall j :: Abs(PositionOf(l, j).size) <= cap
    ensures Abs(PositionOf(Moves(gates, Open(l), ps).Stores(), k).size) <= cap
  {
    if ps != [] {
      hide Move, Matches, WellFormed, Atomic, RunEvents, Expected;
      var u, s := k.userId, Moves(gates, Open(l), ps[..|ps| - 1]);
      var t := Moves(gates, Open(l), ps);
      StoresStayCapped(gates, l, ps[..|ps| - 1], cap, k);
      PiecesMatchAtomicRun(gates, l, ps[..|ps| - 1], map[]);
      PiecesMatchAtomicRun(gates, l, ps, map[]);
      PositionCap.GatedRunsStayCapped(gates, l, Atomic(gates, l, ps, map[]), cap, k);
      RowsMoveToExpected(gates, s, ps[|ps| - 1], u);
      var a := RunEvents(gates, Start(l), Atomic(gates, l, ps, map[]));
      ExpectedRows(t, a, u);
      if t.Stores().positions == Expected(t, map[], u).positions {
        assert SameRow(Expected(t, map[], u), a.account.ledger, k);
      } else {
        assert SameRow(t.Stores(), s.Stores(), k);
      }
    }
  }

  /** No ask that the user's orders meet rounds to a negative price. */
  ghost predicate AsksNotNegative(ps: seq<Piece>, u: Id) {
    forall j :: 0 <= j < |ps| && ps[j].Answered? && ps[j].userId == u ==>
      ExposureCap.AskNotNegative(ps[j].reply.book)
  }

  ghost predicate BooksNotNegative(es: seq<Event>, u: Id) {
    forall j :: 0 <= j < |es| && es[j].Settled? && es[j].userId == u ==> ExposureCap.AskNotNegative(es[j].book)
  }

  lemma {:induction false} AtomicBooksNotNegative(
    gates: seq<Gate>, l: Ledger, ps: seq<Piece>, replies: Replies, u: Id)
    requires AsksNotNegative(ps, u) && ExposureCap.AskNotNegative(ReplyTo(replies, u).book)
    ensures BooksNotNegative(Atomic(gates, l, ps, replies), u)
    decreases |ps|
  {
    if ps != [] {
      hide Moves, ExposureCap.AskNotNegative;
      var init, p := ps[..|ps| - 1], ps[|ps| - 1];
      var es := Atomic(gates, l, init, replies);
      AtomicBooksNotNegative(gates, l, init, replies, u);
      assert es + [] == es;
      match p
      case Evaluated(_, _, _) =>
      case Admitted(_) =>
      case Answered(v, r) =>
        assert v == u ==> ExposureCap.AskNotNegative(r.book);
        AtomicBooksNotNegative(gates, l, init, replies[v := r], u);
      case Resumed(_) =>
    }
  }

  lemma NoBookNoAsk()
    ensures ExposureCap.AskNotNegative(None)
  {
  }

  /** The cost of a user's stored longs is within the cap after every piece of every gated run, under
      the conditions of the atomic runs. */
  lemma {:induction false} StoresStayBounded(gates: seq<Gate>, l: Ledger, ps: seq<Piece>, cap: real, u: Id)
    requires PerUserAggregateExposureCap(cap) in gates
    requires forall k: Key :: k.userId == u ==> ExposureCap.LongsCostSomething(PositionOf(l, k))
    requires Exposure(l, u) <= cap
    requires AsksNotNegative(ps, u)
    ensures Exposure(Moves(gates, Open(l), ps).Stores(), u) <= cap
  {
    if ps != [] {
      hide Move, Matches, WellFormed, Atomic, RunEvents, Expected, Exposure, SameRow,
           ExposureCap.LongsCostSomething, ExposureCap.AskNotNegative;
      var s, t := Moves(gates, Open(l), ps[..|ps| - 1]), Moves(gates, Open(l), ps);
      var es := Atomic(gates, l, ps, map[]);
      var a := RunEvents(gates, Start(l), es);
      StoresStayBounded(gates, l, ps[..|ps| - 1], cap, u);
      PiecesMatchAtomicRun(gates, l, ps[..|ps| - 1], map[]);
      PiecesMatchAtomicRun(gates, l, ps, map[]);
      NoBookNoAsk();
      AtomicBooksNotNegative(gates, l, ps, map[], u);
      ExposureCap.GatedRunsStayBounded(gates, l, es, cap, u);
      RowsMoveToExpected(gates, s, ps[|ps| - 1], u);
      ExpectedRows(t, a, u);
      AgreeOnExposure(Expected(t, map[], u), a.account.ledger, u);
      if t.Stores().positions == Expected(t, map[], u).positions {
        SamePositionsSameExposure(t.Stores(), Expected(t, map[], u), u);
      } else {
        AgreeOnExposure(t.Stores(), s.Stores(), u);
      }
    }
  }

  lemma SamePositionsSameExposure(a: Ledger, b: Ledger, u: Id)
    requires a.positions == b.positions
    ensures Exposure(a, u) == Exposure(b, u)
  {
  }

  lemma MoveKeepsAtMostOnce(gates: seq<Gate>, s: Floor, p: Piece)
    requires WellFormed(s) && Execution.AtMostOnce(s.desk)
    ensures Execution.AtMostOnce(Move(gates, s, p).desk)
  {
    hide Execution.AtMostOnce, Execution.Execute, FillFor, Verdict, ContextOf, ConcurrentApply.Step;
    match p
    case Evaluated(signal, quotes, intentId) =>
    case Admitted(u) =>
      if u in s.approved && s.approved[u].signalId !in s.desk.seen {
        assert u !in s.desk.waiting;
        Execution.SubmitKeepsAtMostOnce(s.desk, u, s.approved[u]);
      }
    case Answered(u, r) =>
      if u in s.desk.waiting {
        Execution.AnswerKeepsAtMostOnce(s.desk, u, r.book, r.orderId, r.fillId);
      }
    case Resumed(u) =>
  }

  /** However the pieces interleave, each signal id has at most one order. */
  lemma {:induction false} SignalsTradeAtMostOnce(gates: seq<Gate>, l: Ledger, ps: seq<Piece>)
    ensures Execution.AtMostOnce(Moves(gates, Open(l), ps).desk)
  {
    if ps == [] {
      Execution.SignalsExecuteAtMostOnce([]);
    } else {
      hide Execution.AtMostOnce, Move, Atomic, Matches, WellFormed;
      var init := ps[..|ps| - 1];
      SignalsTradeAtMostOnce(gates, l, init);
      PiecesMatchAtomicRun(gates, l, init, map[]);
      MoveKeepsAtMostOnce(gates, Moves(gates, Open(l), init), ps[|ps| - 1]);
    }
  }
}
