/** The position and balance stores as one value, and what a log of fills makes of them. */
module Ledgers {
  import opened Domain
  import opened Sums
  import opened PositionMath

  /** The two stores. A balance that was never written reads as `opening`. */
  datatype Ledger = Ledger(positions: map<Key, Position>, balances: map<Id, real>, opening: real)

  function PositionOf(l: Ledger, k: Key): Position {
    if k in l.positions then l.positions[k] else FLAT
  }

  function BalanceOf(l: Ledger, u: Id): real {
    if u in l.balances then l.balances[u] else l.opening
  }

  function KeyOf(f: Fill): Key {
    Key(f.userId, f.marketId, f.tokenId)
  }

  function TradeOf(f: Fill): Trade {
    Trade(f.side, f.size, f.price)
  }

  /** What reconciling one fill does to the stores; a size that is not positive is an error that
      leaves both as they were. */
  function ApplyFill(l: Ledger, f: Fill): Ledger {
    if f.size <= 0.0 then l
    else
      var k, u := KeyOf(f), f.userId;
      Ledger(
        l.positions[k := Absorb(PositionOf(l, k), TradeOf(f))],
        l.balances[u := ApplyFillToBalance(BalanceOf(l, u), f.side, f.size, f.price, f.fee)],
        l.opening)
  }

  function Run(l: Ledger, fs: seq<Fill>): Ledger {
    if fs == [] then l else ApplyFill(Run(l, fs[..|fs| - 1]), fs[|fs| - 1])
  }

  /** The fills of one row, in order. */
  function FillsAt(fs: seq<Fill>, k: Key): seq<Fill> {
    if fs == [] then []
    else FillsAt(fs[..|fs| - 1], k) + (if KeyOf(fs[|fs| - 1]) == k then [fs[|fs| - 1]] else [])
  }

  /** The fills of one user, in order. */
  function FillsOf(fs: seq<Fill>, u: Id): seq<Fill> {
    if fs == [] then []
    else FillsOf(fs[..|fs| - 1], u) + (if fs[|fs| - 1].userId == u then [fs[|fs| - 1]] else [])
  }

  function Trades(fs: seq<Fill>): (ts: seq<Trade>)
    ensures |ts| == |fs|
    ensures forall i :: 0 <= i < |fs| ==> ts[i] == TradeOf(fs[i])
  {
    seq(|fs|, i requires 0 <= i < |fs| => TradeOf(fs[i]))
  }

  /** What a fill does to its user's cash. */
  function CashDelta(): Fill -> real {
    (f: Fill) => if f.size > 0.0 then -(Signed(f.side, f.size) * f.price) - f.fee else 0.0
  }

  function FeePaid(): Fill -> real {
    (f: Fill) => if f.size > 0.0 then f.fee else 0.0
  }

  lemma BalanceMovesByDelta(balance: real, f: Fill)
    ensures f.size > 0.0 ==>
              ApplyFillToBalance(balance, f.side, f.size, f.price, f.fee) == balance + CashDelta()(f)
    ensures f.size <= 0.0 ==> CashDelta()(f) == 0.0
  {
  }

  lemma ApplyFillMovesCash(l: Ledger, f: Fill, u: Id)
    ensures BalanceOf(ApplyFill(l, f), u) == BalanceOf(l, u) + (if f.userId == u then CashDelta()(f) else 0.0)
  {
    hide Absorb, ApplyFillToBalance, CashDelta;
    BalanceMovesByDelta(BalanceOf(l, f.userId), f);
  }

  lemma ApplyFillMovesSize(l: Ledger, f: Fill, k: Key)
    ensures PositionOf(ApplyFill(l, f), k).size ==
            PositionOf(l, k).size + (if f.size > 0.0 && KeyOf(f) == k then Signed(f.side, f.size) else 0.0)
  {
    hide Absorb;
    if f.size > 0.0 {
      AbsorbMovesBasis(PositionOf(l, KeyOf(f)), TradeOf(f));
    }
  }

  // ----- Projection onto rows and users ----------------------------------------------------------

  lemma TradesAppend(fs: seq<Fill>, f: Fill)
    ensures Trades(fs + [f]) == Trades(fs) + [TradeOf(f)]
  {
  }

  lemma FoldAppend(p: Position, ts: seq<Trade>, t: Trade)
    ensures Fold(p, ts + [t]) == Absorb(Fold(p, ts), t)
  {
    hide Absorb;
    assert (ts + [t])[..|ts + [t]| - 1] == ts;
  }

  /** A stored row depends only on the fills of its own key. */
  lemma {:induction false} RowIsFoldOfItsFills(l: Ledger, fs: seq<Fill>, k: Key)
    ensures PositionOf(Run(l, fs), k) == Fold(PositionOf(l, k), Trades(FillsAt(fs, k)))
  {
    hide Absorb;
    if fs != [] {
      var init, f := fs[..|fs| - 1], fs[|fs| - 1];
      RowIsFoldOfItsFills(l, init, k);
      assert FillsAt(init, k) + [] == FillsAt(init, k);
      if KeyOf(f) == k {
        TradesAppend(FillsAt(init, k), f);
        FoldAppend(PositionOf(l, k), Trades(FillsAt(init, k)), TradeOf(f));
        assert f.size <= 0.0 ==> Absorb(PositionOf(Run(l, init), k), TradeOf(f)) == PositionOf(Run(l, init), k) by {
          RejectedTradeChangesNothing(PositionOf(Run(l, init), k), TradeOf(f));
        }
      }
    }
  }

  lemma RejectedTradeChangesNothing(p: Position, t: Trade)
    ensures !t.Accepted() ==> Absorb(p, t) == p
  {
  }

  /** A stored balance depends only on the fills of its own user ... */
  lemma {:induction false} BalanceIsSumOfFills(l: Ledger, fs: seq<Fill>, u: Id)
    ensures BalanceOf(Run(l, fs), u) == BalanceOf(l, u) + Sum(FillsOf(fs, u), CashDelta())
  {
    if fs != [] {
      hide Absorb, ApplyFill, CashDelta;
      var init, f := fs[..|fs| - 1], fs[|fs| - 1];
      BalanceIsSumOfFills(l, init, u);
      ApplyFillMovesCash(Run(l, init), f, u);
      SumAppend(FillsOf(init, u), f, CashDelta());
      assert FillsOf(init, u) + [] == FillsOf(init, u);
    }
  }

  lemma SumAppend<T>(xs: seq<T>, x: T, f: T -> real)
    ensures Sum(xs + [x], f) == Sum(xs, f) + f(x)
  {
    assert (xs + [x])[..|xs + [x]| - 1] == xs;
  }

  /** ... and not even on their order. */
  lemma BalanceIgnoresOrder(l: Ledger, fs: seq<Fill>, gs: seq<Fill>, u: Id)
    requires multiset(FillsOf(fs, u)) == multiset(FillsOf(gs, u))
    ensures BalanceOf(Run(l, fs), u) == BalanceOf(Run(l, gs), u)
  {
    hide Run, FillsOf, Sum;
    BalanceIsSumOfFills(l, fs, u);
    BalanceIsSumOfFills(l, gs, u);
    SumPermutation(FillsOf(fs, u), FillsOf(gs, u), CashDelta());
  }

  lemma {:induction false} RowCountsUserFills(fs: seq<Fill>, u: Id, f: Fill)
    ensures multiset(FillsOf(fs, u))[f] == if f.userId == u then multiset(FillsAt(fs, KeyOf(f)))[f] else 0
  {
    if fs != [] {
      RowCountsUserFills(fs[..|fs| - 1], u, f);
    }
  }

  ghost predicate Wrote(fs: seq<Fill>) {
    exists f :: f in fs && f.size > 0.0
  }

  lemma WroteAppend(fs: seq<Fill>, f: Fill)
    ensures Wrote(fs + [f]) <==> Wrote(fs) || f.size > 0.0
  {
    if Wrote(fs) {
      var g :| g in fs && g.size > 0.0;
      assert g in fs + [f];
    }
    assert f in fs + [f];
  }

  lemma {:induction false} RowsWritten(l: Ledger, fs: seq<Fill>, k: Key, u: Id)
    ensures k in Run(l, fs).positions <==> k in l.positions || Wrote(FillsAt(fs, k))
    ensures u in Run(l, fs).balances <==> u in l.balances || Wrote(FillsOf(fs, u))
    ensures Run(l, fs).opening == l.opening
  {
    if fs != [] {
      hide Absorb, ApplyFillToBalance;
      var init, f := fs[..|fs| - 1], fs[|fs| - 1];
      RowsWritten(l, init, k, u);
      WroteAppend(FillsAt(init, k), f);
      WroteAppend(FillsOf(init, u), f);
      assert FillsAt(init, k) + [] == FillsAt(init, k);
      assert FillsOf(init, u) + [] == FillsOf(init, u);
    }
  }

  lemma SameRowsSameUserFills(fs: seq<Fill>, gs: seq<Fill>, u: Id)
    requires forall k :: FillsAt(fs, k) == FillsAt(gs, k)
    ensures multiset(FillsOf(fs, u)) == multiset(FillsOf(gs, u))
  {
    forall f: Fill
      ensures multiset(FillsOf(fs, u))[f] == multiset(FillsOf(gs, u))[f]
    {
      RowCountsUserFills(fs, u, f);
      RowCountsUserFills(gs, u, f);
    }
  }

  lemma SameMultisetSameWrites(fs: seq<Fill>, gs: seq<Fill>)
    requires multiset(fs) == multiset(gs)
    ensures Wrote(fs) ==> Wrote(gs)
  {
    if Wrote(fs) {
      var f :| f in fs && f.size > 0.0;
      assert f in multiset(gs);
    }
  }

  /** Any two interleavings of the same per-row logs leave the same stores. */
  lemma InterleavingsAgree(l: Ledger, fs: seq<Fill>, gs: seq<Fill>)
    requires forall k :: FillsAt(fs, k) == FillsAt(gs, k)
    ensures Run(l, fs) == Run(l, gs)
  {
    hide Run, FillsOf, FillsAt, Fold, Wrote;
    var a, b := Run(l, fs), Run(l, gs);
    forall k: Key
      ensures SameRow(a, b, k)
    {
      RowsWritten(l, fs, k, k.userId);
      RowsWritten(l, gs, k, k.userId);
      RowIsFoldOfItsFills(l, fs, k);
      RowIsFoldOfItsFills(l, gs, k);
    }
    forall u: Id
      ensures SameBalance(a, b, u)
    {
      SameRowsSameUserFills(fs, gs, u);
      SameMultisetSameWrites(FillsOf(fs, u), FillsOf(gs, u));
      SameMultisetSameWrites(FillsOf(gs, u), FillsOf(fs, u));
      RowsWritten(l, fs, Key(u, "", ""), u);
      RowsWritten(l, gs, Key(u, "", ""), u);
      BalanceIgnoresOrder(l, fs, gs, u);
    }
    SameLedger(a, b);
  }

  ghost predicate SameRow(a: Ledger, b: Ledger, k: Key) {
    (k in a.positions <==> k in b.positions) && PositionOf(a, k) == PositionOf(b, k)
  }

  ghost predicate SameBalance(a: Ledger, b: Ledger, u: Id) {
    (u in a.balances <==> u in b.balances) && BalanceOf(a, u) == BalanceOf(b, u) && a.opening == b.opening
  }

  /** Ledgers with the same rows are equal. */
  lemma SameLedger(a: Ledger, b: Ledger)
    requires forall k :: SameRow(a, b, k)
    requires forall u :: SameBalance(a, b, u)
    ensures a == b
  {
    assert SameBalance(a, b, 0);
    forall k: Key
      ensures k in a.positions <==> k in b.positions
      ensures k in a.positions ==> a.positions[k] == b.positions[k]
    {
      assert SameRow(a, b, k);
    }
    forall u: Id
      ensures u in a.balances <==> u in b.balances
      ensures u in a.balances ==> a.balances[u] == b.balances[u]
    {
      assert SameBalance(a, b, u);
    }
    assert a.positions == b.positions;
    assert a.balances == b.balances;
  }

  // ----- Conservation ----------------------------------------------------------------------------

  /** What a row contributes to its user's books: the cost of what is open, less profit realized. */
  function BookValue(u: Id): (Key, Position) -> real {
    (k: Key, p: Position) => if k.userId == u then p.Basis() - p.realizedPnl else 0.0
  }

  /** A user's cash plus the cost of everything open, less all profit realized so far. */
  ghost function Books(l: Ledger, u: Id): real {
    BalanceOf(l, u) + SumMap(l.positions, BookValue(u))
  }

  function SignedNotional(f: Fill): real {
    Signed(f.side, f.size) * f.price
  }

  lemma BookValueMoves(u: Id, f: Fill, p: Position)
    requires f.size > 0.0
    ensures BookValue(u)(KeyOf(f), Absorb(p, TradeOf(f))) ==
            BookValue(u)(KeyOf(f), p) + (if f.userId == u then SignedNotional(f) else 0.0)
  {
    hide Absorb, Position.Basis;
    AbsorbMovesBasis(p, TradeOf(f));
    assert TradeOf(f).SignedSize() * TradeOf(f).price == SignedNotional(f);
  }

  lemma FlatIsWorthNothing(u: Id, k: Key)
    ensures BookValue(u)(k, FLAT) == 0.0
  {
    hide Position.Basis;
    FlatCostsNothing();
  }

  lemma RowsMoveByNotional(l: Ledger, f: Fill, u: Id)
    requires f.size > 0.0
    ensures SumMap(ApplyFill(l, f).positions, BookValue(u)) ==
            SumMap(l.positions, BookValue(u)) + (if f.userId == u then SignedNotional(f) else 0.0)
  {
    hide Absorb, ApplyFillToBalance, SumMap, BookValue, SignedNotional;
    var k := KeyOf(f);
    var p := PositionOf(l, k);
    SumMapUpdate(l.positions, BookValue(u), k, Absorb(p, TradeOf(f)));
    BookValueMoves(u, f, p);
    FlatIsWorthNothing(u, k);
  }

  lemma CashMovesByNotional(l: Ledger, f: Fill, u: Id)
    requires f.size > 0.0
    ensures BalanceOf(ApplyFill(l, f), u) ==
            BalanceOf(l, u) - (if f.userId == u then SignedNotional(f) + FeePaid()(f) else 0.0)
  {
    hide ApplyFill;
    ApplyFillMovesCash(l, f, u);
  }

  lemma ApplyFillCostsOnlyTheFee(l: Ledger, f: Fill, u: Id)
    ensures Books(ApplyFill(l, f), u) == Books(l, u) - (if f.userId == u then FeePaid()(f) else 0.0)
  {
    if f.size > 0.0 {
      hide ApplyFill, SumMap, BookValue, SignedNotional, BalanceOf;
      RowsMoveByNotional(l, f, u);
      CashMovesByNotional(l, f, u);
    }
  }

  /** Whatever a log of fills grows, reduces, closes or flips, in any mix of markets and users, a
      user's books lose exactly the fees that user paid. */
  lemma {:induction false} BooksLoseOnlyFees(l: Ledger, fs: seq<Fill>, u: Id)
    ensures Books(Run(l, fs), u) + Sum(FillsOf(fs, u), FeePaid()) == Books(l, u)
  {
    if fs != [] {
      hide ApplyFill, Books, FeePaid;
      var init, f := fs[..|fs| - 1], fs[|fs| - 1];
      BooksLoseOnlyFees(l, init, u);
      ApplyFillCostsOnlyTheFee(Run(l, init), f, u);
      SumAppend(FillsOf(init, u), f, FeePaid());
      assert FillsOf(init, u) + [] == FillsOf(init, u);
    }
  }
}
