/** Many `apply` calls in flight at once. A call is cut at its four awaited store operations, and the
    pieces of different calls interleave in any order. */
module ConcurrentApply {
  import opened Domain
  import opened PositionMath
  import opened Ledgers

  /** Which store operation a call is about to perform, with what it has read so far. */
  datatype Stage =
    | GetPosition
    | UpsertPosition(row: Position)
    | GetBalance
    | UpsertBalance(prior: real)

  datatype Call = Call(fill: Fill, stage: Stage) {
    predicate WrotePosition() {
      stage.GetBalance? || stage.UpsertBalance?
    }
  }

  /** The stores, the calls in flight, and the fills of begun and of ended calls in order. */
  datatype State = State(stores: Ledger, calls: map<nat, Call>, begun: seq<Fill>, ended: seq<Fill>)

  datatype Action = Begin(id: nat, fill: Fill) | Resume(id: nat)

  function Initial(l: Ledger): State {
    State(l, map[], [], [])
  }

  function End(s: State, id: nat): State
    requires id in s.calls
  {
    s.(calls := s.calls - {id}, ended := s.ended + [s.calls[id].fill])
  }

  function Advance(s: State, id: nat, stage: Stage): State
    requires id in s.calls
  {
    s.(calls := s.calls[id := Call(s.calls[id].fill, stage)])
  }

  /** One atomic piece; an action that is not possible changes nothing. */
  function Step(s: State, a: Action): State {
    match a
    case Begin(id, fill) =>
      if id in s.calls then s
      else s.(calls := s.calls[id := Call(fill, GetPosition)], begun := s.begun + [fill])
    case Resume(id) =>
      if id !in s.calls then s
      else
        var f := s.calls[id].fill;
        match s.calls[id].stage
        case GetPosition =>
          if f.size <= 0.0 then End(s, id)
          else Advance(s, id, UpsertPosition(Absorb(PositionOf(s.stores, KeyOf(f)), TradeOf(f))))
        case UpsertPosition(row) =>
          Advance(s, id, GetBalance).(stores := s.stores.(positions := s.stores.positions[KeyOf(f) := row]))
        case GetBalance =>
          Advance(s, id, UpsertBalance(BalanceOf(s.stores, f.userId)))
        case UpsertBalance(prior) =>
          var balance := ApplyFillToBalance(prior, f.side, f.size, f.price, f.fee);
          End(s, id).(stores := s.stores.(balances := s.stores.balances[f.userId := balance]))
  }

  function Exec(s: State, acts: seq<Action>): State {
    if acts == [] then s else Step(Exec(s, acts[..|acts| - 1]), acts[|acts| - 1])
  }

  predicate UsersDistinct(s: State) {
    forall i, j :: i in s.calls && j in s.calls && i != j ==> s.calls[i].fill.userId != s.calls[j].fill.userId
  }

  /** At no point of the run do two calls in flight share a user. */
  predicate NeverShares(s: State, acts: seq<Action>) {
    forall n :: 0 <= n <= |acts| ==> UsersDistinct(Exec(s, acts[..n]))
  }

  /** Two fills whose calls may overlap: one of them is rejected, or they belong to different users, or
      they meet in no row and neither moves the balance. */
  predicate Independent(f: Fill, g: Fill) {
    || f.size <= 0.0
    || g.size <= 0.0
    || f.userId != g.userId
    || (KeyOf(f) != KeyOf(g) && CashDelta()(f) == 0.0 && CashDelta()(g) == 0.0)
  }

  predicate NoConflicts(s: State) {
    forall i, j :: i in s.calls && j in s.calls && i != j ==> Independent(s.calls[i].fill, s.calls[j].fill)
  }

  /** At no point of the run do two calls in flight depend on each other. */
  predicate NeverConflicts(s: State, acts: seq<Action>) {
    forall n :: 0 <= n <= |acts| ==> NoConflicts(Exec(s, acts[..n]))
  }

  // ----- The invariant ---------------------------------------------------------------------------

  /** What a call in flight has read and written, against the ledger `l` of the ended calls. */
  ghost predicate CallOk(stores: Ledger, l: Ledger, c: Call) {
    var k, row := KeyOf(c.fill), Absorb(PositionOf(l, KeyOf(c.fill)), TradeOf(c.fill));
    && (!c.stage.GetPosition? ==> c.fill.size > 0.0)
    && (c.stage.UpsertPosition? ==> c.stage.row == row)
    && (c.WrotePosition() ==> k in stores.positions && stores.positions[k] == row)
    && (c.stage.UpsertBalance? ==> c.stage.prior == BalanceOf(l, c.fill.userId))
  }

  ghost predicate RowSettled(s: State, k: Key) {
    forall i :: i in s.calls && KeyOf(s.calls[i].fill) == k ==> !s.calls[i].WrotePosition()
  }

  ghost predicate Idle(s: State, u: Id) {
    forall i :: i in s.calls ==> s.calls[i].fill.userId != u
  }

  ghost predicate StoresOk(s: State, l: Ledger) {
    && (forall i :: i in s.calls ==> CallOk(s.stores, l, s.calls[i]))
    && (forall k :: RowSettled(s, k) ==> SameRow(s.stores, l, k))
    && (forall u :: SameBalance(s.stores, l, u))
  }

  /** Per user, the begun fills are the ended ones followed by the one in flight, if any. */
  ghost predicate OrderOk(s: State) {
    && (forall i :: i in s.calls ==>
          FillsOf(s.begun, s.calls[i].fill.userId) == FillsOf(s.ended, s.calls[i].fill.userId) + [s.calls[i].fill])
    && (forall u :: Idle(s, u) ==> FillsOf(s.begun, u) == FillsOf(s.ended, u))
  }

  lemma FillsOfAppend(fs: seq<Fill>, f: Fill, u: Id)
    ensures FillsOf(fs + [f], u) == FillsOf(fs, u) + (if f.userId == u then [f] else [])
  {
    assert (fs + [f])[..|fs + [f]| - 1] == fs;
  }

  lemma RunAppend(l: Ledger, fs: seq<Fill>, f: Fill)
    ensures Run(l, fs + [f]) == ApplyFill(Run(l, fs), f)
  {
    hide ApplyFill;
    assert (fs + [f])[..|fs + [f]| - 1] == fs;
  }

  lemma BeginKeepsOrder(s: State, id: nat, fill: Fill)
    requires OrderOk(s) && id !in s.calls && UsersDistinct(Step(s, Begin(id, fill)))
    ensures OrderOk(Step(s, Begin(id, fill)))
  {
    hide FillsOf;
    var t := Step(s, Begin(id, fill));
    assert Idle(s, fill.userId) by {
      forall i | i in s.calls ensures s.calls[i].fill.userId != fill.userId {
        assert i in t.calls && id in t.calls && t.calls[i] == s.calls[i];
      }
    }
    forall i | i in t.calls
      ensures FillsOf(t.begun, t.calls[i].fill.userId) == FillsOf(t.ended, t.calls[i].fill.userId) + [t.calls[i].fill]
    {
      FillsOfAppend(s.begun, fill, t.calls[i].fill.userId);
      assert i != id ==> i in s.calls && s.calls[i] == t.calls[i];
    }
    forall u | Idle(t, u)
      ensures FillsOf(t.begun, u) == FillsOf(t.ended, u)
    {
      FillsOfAppend(s.begun, fill, u);
      assert id in t.calls;
      assert Idle(s, u) by {
        forall i | i in s.calls ensures s.calls[i].fill.userId != u {
          assert i in t.calls && t.calls[i] == s.calls[i];
        }
      }
    }
  }

  lemma AdvanceKeepsOrder(s: State, t: State, id: nat)
    requires OrderOk(s) && id in s.calls && t.begun == s.begun && t.ended == s.ended
    requires exists stage :: t.calls == s.calls[id := Call(s.calls[id].fill, stage)]
    ensures OrderOk(t)
  {
    hide FillsOf;
    forall u | Idle(t, u)
      ensures Idle(s, u)
    {
      forall i | i in s.calls ensures s.calls[i].fill.userId != u {
        assert i in t.calls && t.calls[i].fill == s.calls[i].fill;
      }
    }
  }

  lemma EndKeepsOrder(s: State, t: State, id: nat)
    requires OrderOk(s) && UsersDistinct(s) && id in s.calls
    requires t.begun == s.begun && t.ended == s.ended + [s.calls[id].fill] && t.calls == s.calls - {id}
    ensures OrderOk(t)
  {
    hide FillsOf;
    var f := s.calls[id].fill;
    forall i | i in t.calls
      ensures FillsOf(t.begun, t.calls[i].fill.userId) == FillsOf(t.ended, t.calls[i].fill.userId) + [t.calls[i].fill]
    {
      FillsOfAppend(s.ended, f, t.calls[i].fill.userId);
    }
    forall u | Idle(t, u)
      ensures FillsOf(t.begun, u) == FillsOf(t.ended, u)
    {
      FillsOfAppend(s.ended, f, u);
      if u != f.userId {
        assert Idle(s, u) by {
          forall i | i in s.calls ensures s.calls[i].fill.userId != u {
            assert i != id ==> i in t.calls && t.calls[i] == s.calls[i];
          }
        }
      }
    }
  }

  lemma StepKeepsOrder(s: State, a: Action)
    requires OrderOk(s) && UsersDistinct(s) && UsersDistinct(Step(s, a))
    ensures OrderOk(Step(s, a))
  {
    hide FillsOf, Absorb, ApplyFillToBalance, OrderOk;
    match a
    case Begin(id, fill) =>
      if id !in s.calls {
        BeginKeepsOrder(s, id, fill);
      }
    case Resume(id) =>
      if id in s.calls {
        var t := Step(s, a);
        if id in t.calls {
          assert t.calls == s.calls[id := Call(s.calls[id].fill, t.calls[id].stage)];
          AdvanceKeepsOrder(s, t, id);
        } else {
          EndKeepsOrder(s, t, id);
        }
      }
  }

  lemma BeginKeepsStores(s: State, l: Ledger, id: nat, fill: Fill)
    requires StoresOk(s, l)
    ensures StoresOk(Step(s, Begin(id, fill)), l)
  {
    hide Absorb;
    var t := Step(s, Begin(id, fill));
    forall k | RowSettled(t, k)
      ensures SameRow(t.stores, l, k)
    {
      assert RowSettled(s, k) by {
        forall i | i in s.calls && KeyOf(s.calls[i].fill) == k ensures !s.calls[i].WrotePosition() {
          assert i in t.calls && t.calls[i] == s.calls[i];
        }
      }
    }
    forall u: Id
      ensures SameBalance(t.stores, l, u)
    {
      assert SameBalance(s.stores, l, u);
    }
  }

  /** A piece that does not end its call leaves the ledger of the ended calls as it was. */
  lemma AdvanceKeepsStores(s: State, l: Ledger, id: nat)
    requires StoresOk(s, l) && NoConflicts(s)
    requires id in s.calls && !s.calls[id].stage.UpsertBalance?
    requires s.calls[id].fill.size > 0.0
    ensures StoresOk(Step(s, Resume(id)), l)
  {
    hide Absorb, ApplyFillToBalance;
    var t := Step(s, Resume(id));
    var f := s.calls[id].fill;
    var key := KeyOf(f);
    assert SameBalance(s.stores, l, f.userId);
    if s.calls[id].stage.GetPosition? {
      assert RowSettled(s, key) by {
        forall i | i in s.calls && KeyOf(s.calls[i].fill) == key ensures !s.calls[i].WrotePosition() {
          assert CallOk(s.stores, l, s.calls[i]) && (i != id ==> Independent(s.calls[i].fill, f));
        }
      }
      assert SameRow(s.stores, l, key);
    }
    forall i | i in t.calls
      ensures CallOk(t.stores, l, t.calls[i])
    {
      assert i in s.calls && CallOk(s.stores, l, s.calls[i]);
      if i != id {
        assert t.calls[i] == s.calls[i] && Independent(s.calls[i].fill, f);
      }
    }
    forall k | RowSettled(t, k)
      ensures SameRow(t.stores, l, k)
    {
      assert id in t.calls;
      assert RowSettled(s, k) by {
        forall i | i in s.calls && KeyOf(s.calls[i].fill) == k ensures !s.calls[i].WrotePosition() {
          assert i in t.calls && t.calls[i].fill == s.calls[i].fill;
        }
      }
      assert SameRow(s.stores, l, k);
      assert k == key ==> t.stores.positions == s.stores.positions;
    }
    forall u: Id
      ensures SameBalance(t.stores, l, u)
    {
      assert SameBalance(s.stores, l, u);
    }
  }

  /** The last piece of a call makes the stores those of one more ended call. */
  lemma EndKeepsStores(s: State, l: Ledger, id: nat)
    requires StoresOk(s, l) && NoConflicts(s)
    requires id in s.calls
    requires s.calls[id].stage.UpsertBalance? || (s.calls[id].stage.GetPosition? && s.calls[id].fill.size <= 0.0)
    ensures StoresOk(Step(s, Resume(id)), ApplyFill(l, s.calls[id].fill))
  {
    hide Absorb, ApplyFillToBalance;
    var t := Step(s, Resume(id));
    var f := s.calls[id].fill;
    var m := ApplyFill(l, f);
    assert CallOk(s.stores, l, s.calls[id]);
    forall i | i in t.calls
      ensures CallOk(t.stores, m, t.calls[i])
    {
      assert i in s.calls && i != id && t.calls[i] == s.calls[i] && CallOk(s.stores, l, s.calls[i]);
      assert Independent(s.calls[i].fill, f);
      ApplyFillMovesCash(l, f, f.userId);
    }
    forall k | RowSettled(t, k)
      ensures SameRow(t.stores, m, k)
    {
      if k != KeyOf(f) || f.size <= 0.0 {
        assert RowSettled(s, k) by {
          forall i | i in s.calls && KeyOf(s.calls[i].fill) == k ensures !s.calls[i].WrotePosition() {
            assert i != id ==> i in t.calls && t.calls[i] == s.calls[i];
          }
        }
        assert SameRow(s.stores, l, k);
      }
    }
    forall u: Id
      ensures SameBalance(t.stores, m, u)
    {
      assert SameBalance(s.stores, l, u);
    }
  }

  ghost predicate Inv(s: State, l: Ledger) {
    UsersDistinct(s) && OrderOk(s) && StoresOk(s, Run(l, s.ended))
  }

  lemma StepKeepsStores(s: State, l: Ledger, a: Action)
    requires NoConflicts(s) && StoresOk(s, Run(l, s.ended))
    ensures StoresOk(Step(s, a), Run(l, Step(s, a).ended))
  {
    hide StoresOk, NoConflicts, Absorb, Run, ApplyFill, ApplyFillToBalance;
    match a
    case Begin(id, fill) =>
      BeginKeepsStores(s, Run(l, s.ended), id, fill);
    case Resume(id) =>
      if id in s.calls {
        var f := s.calls[id].fill;
        if !s.calls[id].stage.GetPosition? {
          SizeKnown(s, Run(l, s.ended), id);
        }
        if s.calls[id].stage.UpsertBalance? || (s.calls[id].stage.GetPosition? && f.size <= 0.0) {
          EndKeepsStores(s, Run(l, s.ended), id);
          RunAppend(l, s.ended, f);
        } else {
          AdvanceKeepsStores(s, Run(l, s.ended), id);
        }
      }
  }

  lemma StepKeepsInv(s: State, l: Ledger, a: Action)
    requires Inv(s, l) && UsersDistinct(Step(s, a))
    ensures Inv(Step(s, a), l)
  {
    hide StoresOk, OrderOk, Step, Run;
    StepKeepsOrder(s, a);
    StepKeepsStores(s, l, a);
  }

  lemma SizeKnown(s: State, l: Ledger, id: nat)
    requires StoresOk(s, l) && id in s.calls && !s.calls[id].stage.GetPosition?
    ensures s.calls[id].fill.size > 0.0
  {
    assert CallOk(s.stores, l, s.calls[id]);
  }

  lemma {:induction false} ExecKeepsInv(l: Ledger, acts: seq<Action>)
    requires NeverShares(Initial(l), acts)
    ensures Inv(Exec(Initial(l), acts), l)
  {
    if acts == [] {
      forall k: Key ensures SameRow(l, l, k) {}
      forall u: Id ensures SameBalance(l, l, u) {}
    } else {
      hide Inv, Step, UsersDistinct;
      var init := acts[..|acts| - 1];
      forall n | 0 <= n <= |init|
        ensures UsersDistinct(Exec(Initial(l), init[..n]))
      {
        assert init[..n] == acts[..n];
      }
      ExecKeepsInv(l, init);
      assert acts[..|acts|] == acts;
      StepKeepsInv(Exec(Initial(l), init), l, acts[|acts| - 1]);
    }
  }

  // ----- The theorems ----------------------------------------------------------------------------

  lemma {:induction false} RowsWithinUsers(fs: seq<Fill>, k: Key)
    ensures FillsAt(fs, k) == FillsAt(FillsOf(fs, k.userId), k)
  {
    if fs != [] {
      var init, f := fs[..|fs| - 1], fs[|fs| - 1];
      RowsWithinUsers(init, k);
      assert FillsOf(init, k.userId) + [] == FillsOf(init, k.userId);
      assert (FillsOf(init, k.userId) + [f])[..|FillsOf(init, k.userId) + [f]| - 1] == FillsOf(init, k.userId);
    }
  }

  /** With no call in flight, the invariant fixes the stores: they are those of any serial run that keeps
      each user's order. */
  lemma RestIsSerial(s: State, l: Ledger, serial: seq<Fill>)
    requires Inv(s, l) && s.calls == map[]
    requires forall u :: FillsOf(serial, u) == FillsOf(s.begun, u)
    ensures s.stores == Run(l, serial)
  {
    hide FillsOf, FillsAt, Run;
    forall k: Key
      ensures SameRow(s.stores, Run(l, s.ended), k)
    {
      assert RowSettled(s, k);
    }
    SameLedger(s.stores, Run(l, s.ended));
    forall k: Key
      ensures FillsAt(serial, k) == FillsAt(s.ended, k)
    {
      assert Idle(s, k.userId);
      RowsWithinUsers(serial, k);
      RowsWithinUsers(s.ended, k);
    }
    InterleavingsAgree(l, serial, s.ended);
  }

  /** When no two calls in flight share a user, every interleaving that lets all calls end leaves the
      stores that result from running the same fills one after another, in any order that keeps each
      user's own order. */
  lemma InterleavedCallsAreSerial(l: Ledger, acts: seq<Action>, serial: seq<Fill>)
    requires NeverShares(Initial(l), acts)
    requires Exec(Initial(l), acts).calls == map[]
    requires forall u :: FillsOf(serial, u) == FillsOf(Exec(Initial(l), acts).begun, u)
    ensures Exec(Initial(l), acts).stores == Run(l, serial)
  {
    hide Exec, FillsOf, Run, Inv;
    ExecKeepsInv(l, acts);
    RestIsSerial(Exec(Initial(l), acts), l, serial);
  }

  lemma ExecNext(s: State, acts: seq<Action>, n: nat)
    requires n < |acts|
    ensures Exec(s, acts[..n + 1]) == Step(Exec(s, acts[..n]), acts[n])
  {
    hide Step;
    assert acts[..n + 1][..n] == acts[..n];
  }

  lemma ExecNothing(s: State)
    ensures Exec(s, []) == s
  {
  }

  /** Three pieces take a call from its start to having read the balance. */
  lemma ThreePieces(s: State, id: nat)
    requires id in s.calls && s.calls[id].stage.GetPosition? && s.calls[id].fill.size > 0.0
    ensures var t := Step(Step(Step(s, Resume(id)), Resume(id)), Resume(id));
            var f := s.calls[id].fill;
            && t.calls == s.calls[id := Call(f, UpsertBalance(BalanceOf(s.stores, f.userId)))]
            && t.stores == s.stores.(
                 positions := s.stores.positions[KeyOf(f) := Absorb(PositionOf(s.stores, KeyOf(f)), TradeOf(f))])
            && t.begun == s.begun && t.ended == s.ended
  {
    hide Absorb;
    var f := s.calls[id].fill;
    var a := Step(s, Resume(id));
    var b := Step(a, Resume(id));
    assert b.calls == s.calls[id := Call(f, GetBalance)];
  }

  /** One call from its beginning to its end, with nothing between its pieces. */
  function WholeCall(id: nat, f: Fill): seq<Action> {
    [Begin(id, f), Resume(id), Resume(id), Resume(id), Resume(id)]
  }

  lemma WholeCallSteps(s: State, id: nat, f: Fill)
    ensures var begun := Step(s, Begin(id, f));
            Exec(s, WholeCall(id, f)) ==
            Step(Step(Step(Step(begun, Resume(id)), Resume(id)), Resume(id)), Resume(id))
  {
    hide Step, Exec;
    var acts := WholeCall(id, f);
    assert acts[..0] == [] && acts[..5] == acts;
    ExecNothing(s);
    ExecNext(s, acts, 0);
    ExecNext(s, acts, 1);
    ExecNext(s, acts, 2);
    ExecNext(s, acts, 3);
    ExecNext(s, acts, 4);
  }

  lemma LastPiece(s: State, id: nat)
    requires id in s.calls && s.calls[id].stage.UpsertBalance?
    ensures var c := s.calls[id];
            var f, u := c.fill, c.fill.userId;
            Step(s, Resume(id)) ==
            State(s.stores.(balances := s.stores.balances[
                    u := ApplyFillToBalance(c.stage.prior, f.side, f.size, f.price, f.fee)]),
                  s.calls - {id}, s.begun, s.ended + [f])
  {
    hide ApplyFillToBalance;
  }

  /** A call that is not interrupted does exactly what reconciling its fill does, and ends; a size that
      is not positive ends it at its first piece. */
  lemma UninterruptedCallIsApplyFill(s: State, id: nat, f: Fill)
    requires id !in s.calls
    ensures Exec(s, WholeCall(id, f)) ==
            State(ApplyFill(s.stores, f), s.calls, s.begun + [f], s.ended + [f])
  {
    hide Absorb, ApplyFillToBalance, Exec;
    WholeCallSteps(s, id, f);
    var begun := Step(s, Begin(id, f));
    assert begun == State(s.stores, s.calls[id := Call(f, GetPosition)], s.begun + [f], s.ended);
    if f.size > 0.0 {
      hide Step;
      ThreePieces(begun, id);
      LastPiece(Step(Step(Step(begun, Resume(id)), Resume(id)), Resume(id)), id);
      assert begun.calls[id := Call(f, UpsertBalance(BalanceOf(s.stores, f.userId)))] - {id} == s.calls;
    } else {
      assert begun.calls - {id} == s.calls;
    }
  }
}
