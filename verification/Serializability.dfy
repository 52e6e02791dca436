/** Exactly which fills may be reconciled concurrently: every interleaving of their calls is a serial
    run if and only if no two of them depend on each other. */
module Serializability {
  import opened Domain
  import opened Sums
  import opened PositionMath
  import opened Ledgers
  import opened ConcurrentApply

  /** Any two of the fills are independent; one that occurs twice is so of itself. */
  ghost predicate MutuallyIndependent(fs: multiset<Fill>) {
    forall f, g :: f in fs && g in fs && (f != g || 2 <= fs[f]) ==> Independent(f, g)
  }

  /** The stores are those of the fills one after another, in some order. */
  ghost predicate Serial(l: Ledger, fs: seq<Fill>, stores: Ledger) {
    exists order: seq<Fill> :: multiset(order) == multiset(fs) && stores == Run(l, order)
  }

  /** However the calls for these fills are begun and interleaved, once all have ended the stores are
      those of some serial run. */
  ghost predicate AlwaysSerial(l: Ledger, fs: seq<Fill>) {
    forall acts: seq<Action> ::
      var s := Exec(Initial(l), acts);
      s.calls == map[] && multiset(s.begun) == multiset(fs) ==> Serial(l, fs, s.stores)
  }

  // ----- Independent fills are serial ------------------------------------------------------------

  function InFlight(s: State, f: Fill): set<nat> {
    set i | i in s.calls && s.calls[i].fill == f
  }

  /** Every begun fill has ended or is in flight, copy for copy. */
  ghost predicate Accounted(s: State) {
    forall f :: multiset(s.begun)[f] == multiset(s.ended)[f] + |InFlight(s, f)|
  }

  /** A call more in flight is one copy more of its own fill. */
  lemma OneMoreInFlight(s: State, t: State, id: nat, f: Fill)
    requires id in t.calls && s.calls == t.calls - {id}
    ensures |InFlight(t, f)| == |InFlight(s, f)| + (if t.calls[id].fill == f then 1 else 0)
  {
    if t.calls[id].fill == f {
      assert InFlight(t, f) == InFlight(s, f) + {id};
    } else {
      assert InFlight(t, f) == InFlight(s, f);
    }
  }

  lemma BeginKeepsAccounted(s: State, id: nat, fill: Fill)
    requires Accounted(s) && id !in s.calls
    ensures Accounted(Step(s, Begin(id, fill)))
  {
    hide InFlight;
    var t := Step(s, Begin(id, fill));
    assert s.calls == t.calls - {id};
    forall f: Fill
      ensures multiset(t.begun)[f] == multiset(t.ended)[f] + |InFlight(t, f)|
    {
      OneMoreInFlight(s, t, id, f);
    }
  }

  lemma AdvanceKeepsAccounted(s: State, t: State, id: nat)
    requires Accounted(s) && id in s.calls && t.begun == s.begun && t.ended == s.ended
    requires exists stage :: t.calls == s.calls[id := Call(s.calls[id].fill, stage)]
    ensures Accounted(t)
  {
    forall f: Fill
      ensures InFlight(t, f) == InFlight(s, f)
    {
    }
  }

  lemma EndKeepsAccounted(s: State, t: State, id: nat)
    requires Accounted(s) && id in s.calls
    requires t.begun == s.begun && t.ended == s.ended + [s.calls[id].fill] && t.calls == s.calls - {id}
    ensures Accounted(t)
  {
    hide InFlight;
    forall f: Fill
      ensures multiset(t.begun)[f] == multiset(t.ended)[f] + |InFlight(t, f)|
    {
      OneMoreInFlight(t, s, id, f);
    }
  }

  lemma StepKeepsAccounted(s: State, a: Action)
    requires Accounted(s)
    ensures Accounted(Step(s, a))
  {
    hide Absorb, ApplyFillToBalance, Accounted;
    match a
    case Begin(id, fill) =>
      if id !in s.calls {
        BeginKeepsAccounted(s, id, fill);
      }
    case Resume(id) =>
      if id in s.calls {
        var t := Step(s, a);
        if id in t.calls {
          assert t.calls == s.calls[id := Call(s.calls[id].fill, t.calls[id].stage)];
          AdvanceKeepsAccounted(s, t, id);
        } else {
          EndKeepsAccounted(s, t, id);
        }
      }
  }

  lemma {:induction false} ExecKeepsAccounted(l: Ledger, acts: seq<Action>)
    ensures Accounted(Exec(Initial(l), acts))
  {
    if acts == [] {
      forall f: Fill ensures InFlight(Initial(l), f) == {} {}
    } else {
      hide Step, Accounted;
      ExecKeepsAccounted(l, acts[..|acts| - 1]);
      StepKeepsAccounted(Exec(Initial(l), acts[..|acts| - 1]), acts[|acts| - 1]);
    }
  }

  lemma {:induction false} BegunGrows(s: State, acts: seq<Action>, n: nat)
    requires n <= |acts|
    ensures multiset(Exec(s, acts[..n]).begun) <= multiset(Exec(s, acts).begun)
  {
    if n < |acts| {
      hide Absorb, ApplyFillToBalance;
      var init := acts[..|acts| - 1];
      BegunGrows(s, init, n);
      assert init[..n] == acts[..n];
    } else {
      assert acts[..n] == acts;
    }
  }

  lemma TwoInFlight(s: State, i: nat, j: nat)
    requires Accounted(s) && i in s.calls && j in s.calls && i != j
    ensures var f, g := s.calls[i].fill, s.calls[j].fill;
            f in s.begun && g in s.begun && (f == g ==> 2 <= multiset(s.begun)[f])
  {
    var f, g := s.calls[i].fill, s.calls[j].fill;
    AtLeast({i}, InFlight(s, f));
    AtLeast({j}, InFlight(s, g));
    if f == g {
      AtLeast({i, j}, InFlight(s, f));
    }
    assert f in multiset(s.begun) && g in multiset(s.begun);
  }

  lemma AtLeast(a: set<nat>, b: set<nat>)
    requires a <= b
    ensures |a| <= |b|
  {
    assert b == a + (b - a);
  }

  lemma NoConflictsWithin(s: State, fs: multiset<Fill>)
    requires Accounted(s) && multiset(s.begun) <= fs && MutuallyIndependent(fs)
    ensures NoConflicts(s)
  {
    hide Accounted, Independent;
    forall i, j | i in s.calls && j in s.calls && i != j
      ensures Independent(s.calls[i].fill, s.calls[j].fill)
    {
      TwoInFlight(s, i, j);
      assert s.calls[i].fill in multiset(s.begun) && s.calls[j].fill in multiset(s.begun);
    }
  }

  /** As long as calls in flight do not depend on each other, the stores are those of the ended calls. */
  lemma {:induction false} ExecKeepsStores(l: Ledger, acts: seq<Action>)
    requires NeverConflicts(Initial(l), acts)
    ensures StoresOk(Exec(Initial(l), acts), Run(l, Exec(Initial(l), acts).ended))
  {
    if acts == [] {
      forall k: Key ensures SameRow(l, l, k) {}
      forall u: Id ensures SameBalance(l, l, u) {}
    } else {
      hide StoresOk, Step, NoConflicts;
      var init := acts[..|acts| - 1];
      forall n | 0 <= n <= |init|
        ensures NoConflicts(Exec(Initial(l), init[..n]))
      {
        assert init[..n] == acts[..n];
      }
      ExecKeepsStores(l, init);
      assert init[..|init|] == init;
      StepKeepsStores(Exec(Initial(l), init), l, acts[|acts| - 1]);
    }
  }

  lemma ConflictFreeRunsAreSerial(l: Ledger, acts: seq<Action>)
    requires NeverConflicts(Initial(l), acts) && Exec(Initial(l), acts).calls == map[]
    ensures Exec(Initial(l), acts).stores == Run(l, Exec(Initial(l), acts).ended)
  {
    hide Exec, Run;
    var s := Exec(Initial(l), acts);
    ExecKeepsStores(l, acts);
    forall k: Key
      ensures SameRow(s.stores, Run(l, s.ended), k)
    {
      assert RowSettled(s, k);
    }
    SameLedger(s.stores, Run(l, s.ended));
  }

  lemma IndependentFillsAreSerial(l: Ledger, fs: seq<Fill>, acts: seq<Action>)
    requires MutuallyIndependent(multiset(fs))
    requires Exec(Initial(l), acts).calls == map[] && multiset(Exec(Initial(l), acts).begun) == multiset(fs)
    ensures Serial(l, fs, Exec(Initial(l), acts).stores)
  {
    hide Exec, Run, NoConflicts, MutuallyIndependent;
    var s := Exec(Initial(l), acts);
    forall n | 0 <= n <= |acts|
      ensures NoConflicts(Exec(Initial(l), acts[..n]))
    {
      ExecKeepsAccounted(l, acts[..n]);
      BegunGrows(Initial(l), acts, n);
      NoConflictsWithin(Exec(Initial(l), acts[..n]), multiset(fs));
    }
    ConflictFreeRunsAreSerial(l, acts);
    ExecKeepsAccounted(l, acts);
    forall f: Fill
      ensures multiset(s.ended)[f] == multiset(fs)[f]
    {
      assert InFlight(s, f) == {};
    }
  }

  // ----- Dependent fills are not -----------------------------------------------------------------

  /** Two calls in lockstep, each piece of the first followed by the same piece of the second. */
  function Lockstep(f: Fill, g: Fill): seq<Action> {
    [Begin(0, f), Begin(1, g),
     Resume(0), Resume(1), Resume(0), Resume(1), Resume(0), Resume(1), Resume(0), Resume(1)]
  }

  function Both(f: Fill, first: Stage, g: Fill, second: Stage): map<nat, Call> {
    map[0 := Call(f, first), 1 := Call(g, second)]
  }

  lemma BothRead(s: State, f: Fill, g: Fill)
    requires s.calls == Both(f, GetPosition, g, GetPosition) && f.size > 0.0 && g.size > 0.0
    ensures Step(Step(s, Resume(0)), Resume(1)) ==
            s.(calls := Both(f, UpsertPosition(Absorb(PositionOf(s.stores, KeyOf(f)), TradeOf(f))),
                             g, UpsertPosition(Absorb(PositionOf(s.stores, KeyOf(g)), TradeOf(g)))))
  {
    hide Absorb;
  }

  lemma BothWritePositions(s: State, f: Fill, p: Position, g: Fill, q: Position)
    requires s.calls == Both(f, UpsertPosition(p), g, UpsertPosition(q))
    ensures Step(Step(s, Resume(0)), Resume(1)) ==
            s.(calls := Both(f, GetBalance, g, GetBalance),
               stores := s.stores.(positions := s.stores.positions[KeyOf(f) := p][KeyOf(g) := q]))
  {
  }

  lemma BothReadBalances(s: State, f: Fill, g: Fill)
    requires s.calls == Both(f, GetBalance, g, GetBalance)
    ensures Step(Step(s, Resume(0)), Resume(1)) ==
            s.(calls := Both(f, UpsertBalance(BalanceOf(s.stores, f.userId)),
                             g, UpsertBalance(BalanceOf(s.stores, g.userId))))
  {
  }

  lemma BothWriteBalances(s: State, f: Fill, x: real, g: Fill, y: real)
    requires s.calls == Both(f, UpsertBalance(x), g, UpsertBalance(y))
    ensures var t := Step(Step(s, Resume(0)), Resume(1));
            && t.calls == map[] && t.begun == s.begun && t.stores.positions == s.stores.positions
            && BalanceOf(t.stores, g.userId) == ApplyFillToBalance(y, g.side, g.size, g.price, g.fee)
  {
    hide ApplyFillToBalance;
    assert s.calls - {0} - {1} == map[];
  }

  lemma LockstepSteps(s: State, f: Fill, g: Fill)
    ensures var s2 := Step(Step(s, Begin(0, f)), Begin(1, g));
            var s4 := Step(Step(s2, Resume(0)), Resume(1));
            var s6 := Step(Step(s4, Resume(0)), Resume(1));
            var s8 := Step(Step(s6, Resume(0)), Resume(1));
            Exec(s, Lockstep(f, g)) == Step(Step(s8, Resume(0)), Resume(1))
  {
    hide Step, Exec;
    var acts := Lockstep(f, g);
    assert acts[..0] == [] && acts[..10] == acts;
    ExecNothing(s);
    ExecNext(s, acts, 0);
    ExecNext(s, acts, 1);
    ExecNext(s, acts, 2);
    ExecNext(s, acts, 3);
    ExecNext(s, acts, 4);
    ExecNext(s, acts, 5);
    ExecNext(s, acts, 6);
    ExecNext(s, acts, 7);
    ExecNext(s, acts, 8);
    ExecNext(s, acts, 9);
  }

  lemma LockstepEnd(s: State, f: Fill, g: Fill)
    requires s.calls == Both(f, GetPosition, g, GetPosition) && f.size > 0.0 && g.size > 0.0
    ensures var s4 := Step(Step(s, Resume(0)), Resume(1));
            var s6 := Step(Step(s4, Resume(0)), Resume(1));
            var s8 := Step(Step(s6, Resume(0)), Resume(1));
            var t := Step(Step(s8, Resume(0)), Resume(1));
            var p, q := PositionOf(s.stores, KeyOf(f)), PositionOf(s.stores, KeyOf(g));
            && t.calls == map[] && t.begun == s.begun
            && t.stores.positions ==
               s.stores.positions[KeyOf(f) := Absorb(p, TradeOf(f))][KeyOf(g) := Absorb(q, TradeOf(g))]
            && BalanceOf(t.stores, g.userId) ==
               ApplyFillToBalance(BalanceOf(s.stores, g.userId), g.side, g.size, g.price, g.fee)
  {
    hide Step, Absorb, Both, KeyOf, ApplyFillToBalance;
    var p, q := Absorb(PositionOf(s.stores, KeyOf(f)), TradeOf(f)), Absorb(PositionOf(s.stores, KeyOf(g)), TradeOf(g));
    BothRead(s, f, g);
    var s4 := Step(Step(s, Resume(0)), Resume(1));
    BothWritePositions(s4, f, p, g, q);
    var s6 := Step(Step(s4, Resume(0)), Resume(1));
    BothReadBalances(s6, f, g);
    var s8 := Step(Step(s6, Resume(0)), Resume(1));
    BothWriteBalances(s8, f, BalanceOf(s6.stores, f.userId), g, BalanceOf(s6.stores, g.userId));
  }

  /** Two accepted calls of one user in lockstep lose what the first did to the balance, and to the row
      of the second. */
  lemma LockstepLosesTheFirst(s: State, f: Fill, g: Fill)
    requires s.calls == map[] && f.userId == g.userId && f.size > 0.0 && g.size > 0.0
    ensures var t := Exec(s, Lockstep(f, g));
            && t.calls == map[] && t.begun == s.begun + [f, g]
            && BalanceOf(t.stores, g.userId) == BalanceOf(s.stores, g.userId) + CashDelta()(g)
            && PositionOf(t.stores, KeyOf(g)) == Absorb(PositionOf(s.stores, KeyOf(g)), TradeOf(g))
  {
    hide Absorb, Exec, Lockstep, Step, Both, CashDelta, ApplyFillToBalance;
    BothBegin(s, f, g);
    LockstepSteps(s, f, g);
    LockstepEnd(Step(Step(s, Begin(0, f)), Begin(1, g)), f, g);
    BalanceMovesByDelta(BalanceOf(s.stores, g.userId), g);
  }

  lemma BothBegin(s: State, f: Fill, g: Fill)
    requires s.calls == map[]
    ensures Step(Step(s, Begin(0, f)), Begin(1, g)) ==
            State(s.stores, Both(f, GetPosition, g, GetPosition), s.begun + [f, g], s.ended)
  {
    assert s.begun + [f] + [g] == s.begun + [f, g];
  }

  /** What a fill does to the cash of one user, and to the size of one row. */
  function CashMove(u: Id): Fill -> real {
    (f: Fill) => if f.userId == u then CashDelta()(f) else 0.0
  }

  function SizeMove(k: Key): Fill -> real {
    (f: Fill) => if f.size > 0.0 && KeyOf(f) == k then Signed(f.side, f.size) else 0.0
  }

  lemma {:induction false} RunMovesCash(l: Ledger, fs: seq<Fill>, u: Id)
    ensures BalanceOf(Run(l, fs), u) == BalanceOf(l, u) + Sum(fs, CashMove(u))
  {
    if fs != [] {
      hide ApplyFill, CashDelta;
      RunMovesCash(l, fs[..|fs| - 1], u);
      ApplyFillMovesCash(Run(l, fs[..|fs| - 1]), fs[|fs| - 1], u);
    }
  }

  lemma {:induction false} RunMovesSize(l: Ledger, fs: seq<Fill>, k: Key)
    ensures PositionOf(Run(l, fs), k).size == PositionOf(l, k).size + Sum(fs, SizeMove(k))
  {
    if fs != [] {
      hide ApplyFill;
      RunMovesSize(l, fs[..|fs| - 1], k);
      ApplyFillMovesSize(Run(l, fs[..|fs| - 1]), fs[|fs| - 1], k);
    }
  }

  /** What every serial order of the fills agrees on. */
  lemma OrdersAgree(l: Ledger, fs: seq<Fill>, stores: Ledger, u: Id, k: Key)
    requires Serial(l, fs, stores)
    ensures BalanceOf(stores, u) == BalanceOf(Run(l, fs), u)
    ensures PositionOf(stores, k).size == PositionOf(Run(l, fs), k).size
  {
    hide Run, Sum;
    var order :| multiset(order) == multiset(fs) && stores == Run(l, order);
    RunMovesCash(l, order, u);
    RunMovesCash(l, fs, u);
    SumPermutation(order, fs, CashMove(u));
    RunMovesSize(l, order, k);
    RunMovesSize(l, fs, k);
    SumPermutation(order, fs, SizeMove(k));
  }

  function OneByOne(fs: seq<Fill>): seq<Action> {
    if fs == [] then [] else OneByOne(fs[..|fs| - 1]) + WholeCall(0, fs[|fs| - 1])
  }

  lemma {:induction false} ExecConcat(s: State, acts: seq<Action>, more: seq<Action>)
    ensures Exec(s, acts + more) == Exec(Exec(s, acts), more)
    decreases |more|
  {
    hide Step;
    if more == [] {
      assert acts + more == acts;
    } else {
      ExecConcat(s, acts, more[..|more| - 1]);
      assert (acts + more)[..|acts + more| - 1] == acts + more[..|more| - 1];
    }
  }

  lemma {:induction false} OneByOneRuns(l: Ledger, fs: seq<Fill>)
    ensures Exec(Initial(l), OneByOne(fs)) == State(Run(l, fs), map[], fs, fs)
  {
    if fs == [] {
      assert Exec(Initial(l), []) == Initial(l);
    } else {
      hide Exec, ApplyFill, WholeCall;
      var init, f := fs[..|fs| - 1], fs[|fs| - 1];
      OneByOneRuns(l, init);
      ExecConcat(Initial(l), OneByOne(init), WholeCall(0, f));
      UninterruptedCallIsApplyFill(Exec(Initial(l), OneByOne(init)), 0, f);
      assert init + [f] == fs;
    }
  }

  /** With the others out of the way, two dependent calls in lockstep, the one that would be lost
      first, end in stores that no serial order gives. */
  lemma LostUpdateIsNotSerial(l: Ledger, rest: seq<Fill>, f: Fill, g: Fill)
    requires f.userId == g.userId && f.size > 0.0 && g.size > 0.0
    requires KeyOf(f) == KeyOf(g) || CashDelta()(f) != 0.0
    ensures !AlwaysSerial(l, rest + [f, g])
  {
    hide Exec, Run, ApplyFill, Absorb, CashDelta, Serial, Lockstep, OneByOne;
    var s, fs := Exec(Initial(l), OneByOne(rest)), rest + [f, g];
    OneByOneRuns(l, rest);
    LockstepLosesTheFirst(s, f, g);
    var acts := OneByOne(rest) + Lockstep(f, g);
    ExecConcat(Initial(l), OneByOne(rest), Lockstep(f, g));
    var t := Exec(Initial(l), acts);
    AbsorbMovesBasis(PositionOf(s.stores, KeyOf(g)), TradeOf(g));
    assert rest + [f] + [g] == fs;
    RunAppend(l, rest, f);
    RunAppend(l, rest + [f], g);
    ApplyFillMovesCash(Run(l, rest), f, g.userId);
    ApplyFillMovesCash(Run(l, rest + [f]), g, g.userId);
    ApplyFillMovesSize(Run(l, rest), f, KeyOf(g));
    ApplyFillMovesSize(Run(l, rest + [f]), g, KeyOf(g));
    if Serial(l, fs, t.stores) {
      OrdersAgree(l, fs, t.stores, g.userId, KeyOf(g));
      assert false;
    }
  }

  lemma DrawOne(fs: seq<Fill>, f: Fill) returns (rest: seq<Fill>)
    requires f in fs
    ensures multiset(rest) == multiset(fs) - multiset{f}
  {
    var i :| 0 <= i < |fs| && fs[i] == f;
    rest := fs[..i] + fs[i + 1..];
    MultisetWithout(fs, i);
  }

  /** Two members of a list, drawn to its end. */
  lemma DrawTwo(fs: seq<Fill>, f: Fill, g: Fill) returns (rest: seq<Fill>)
    requires f in fs && g in fs && (f != g || 2 <= multiset(fs)[f])
    ensures multiset(rest + [f, g]) == multiset(fs)
  {
    var others := DrawOne(fs, f);
    assert f in multiset(fs) && g in multiset(others);
    rest := DrawOne(others, g);
    assert multiset(rest + [f, g]) == multiset(rest) + multiset{f, g};
  }

  lemma SameFillsSameSerial(l: Ledger, fs: seq<Fill>, gs: seq<Fill>)
    requires multiset(fs) == multiset(gs) && AlwaysSerial(l, fs)
    ensures AlwaysSerial(l, gs)
  {
    hide Exec, Run;
    forall acts: seq<Action>
      ensures var s := Exec(Initial(l), acts);
              s.calls == map[] && multiset(s.begun) == multiset(gs) ==> Serial(l, gs, s.stores)
    {
      var s := Exec(Initial(l), acts);
      if s.calls == map[] && multiset(s.begun) == multiset(gs) {
        assert Serial(l, fs, s.stores);
      }
    }
  }

  lemma DependentFillsAreNotSerial(l: Ledger, fs: seq<Fill>, f: Fill, g: Fill)
    requires f in fs && g in fs && (f != g || 2 <= multiset(fs)[f]) && !Independent(f, g)
    ensures !AlwaysSerial(l, fs)
  {
    hide AlwaysSerial, CashDelta;
    if KeyOf(f) == KeyOf(g) || CashDelta()(f) != 0.0 {
      var rest := DrawTwo(fs, f, g);
      LostUpdateIsNotSerial(l, rest, f, g);
      if AlwaysSerial(l, fs) {
        SameFillsSameSerial(l, fs, rest + [f, g]);
      }
    } else {
      var rest := DrawTwo(fs, g, f);
      LostUpdateIsNotSerial(l, rest, g, f);
      if AlwaysSerial(l, fs) {
        SameFillsSameSerial(l, fs, rest + [g, f]);
      }
    }
  }

  // ----- The theorem -----------------------------------------------------------------------------

  /** Whatever the stores hold, every interleaving of the calls for some fills is a serial run if and
      only if the fills are mutually independent. */
  lemma SerialIffIndependent(l: Ledger, fs: seq<Fill>)
    ensures AlwaysSerial(l, fs) <==> MutuallyIndependent(multiset(fs))
  {
    hide Exec, Serial, Independent;
    if MutuallyIndependent(multiset(fs)) {
      forall acts: seq<Action>
        ensures var s := Exec(Initial(l), acts);
                s.calls == map[] && multiset(s.begun) == multiset(fs) ==> Serial(l, fs, s.stores)
      {
        var s := Exec(Initial(l), acts);
        if s.calls == map[] && multiset(s.begun) == multiset(fs) {
          IndependentFillsAreSerial(l, fs, acts);
        }
      }
    } else {
      hide AlwaysSerial;
      var f, g :| f in multiset(fs) && g in multiset(fs) && (f != g || 2 <= multiset(fs)[f]) && !Independent(f, g);
      DependentFillsAreNotSerial(l, fs, f, g);
    }
  }

  /** Two accepted fills, one of which moves the balance, may overlap exactly when their users differ. */
  lemma TwoCallsAreSerialIffUsersDiffer(l: Ledger, f: Fill, g: Fill)
    requires f.size > 0.0 && g.size > 0.0 && (CashDelta()(f) != 0.0 || CashDelta()(g) != 0.0)
    ensures AlwaysSerial(l, [f, g]) <==> f.userId != g.userId
  {
    hide AlwaysSerial, CashDelta;
    SerialIffIndependent(l, [f, g]);
    var fs := multiset([f, g]);
    assert fs == multiset{f, g};
    assert MutuallyIndependent(fs) ==> Independent(f, g);
    if f.userId != g.userId {
      forall x, y | x in fs && y in fs && (x != y || 2 <= fs[x])
        ensures Independent(x, y)
      {
        assert (x == f && y == g) || (x == g && y == f);
      }
    }
  }
}
