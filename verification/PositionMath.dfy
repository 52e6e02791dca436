/** What one fill does to a position and to a USDC balance, and the laws this obeys over trade logs. */
module PositionMath {
  import opened Domain
  import opened Sums

  datatype PositionUpdate = PositionUpdate(newSize: real, newAverageCost: real, realizedPnlDelta: real)

  datatype ValueError = FillSizeNotPositive

  /** Same side, or opening: average the cost against absolute notionals and realize nothing. */
  function Grown(priorSize: real, priorAvgCost: real, signedFill: real, fillSize: real, fillPrice: real)
    : PositionUpdate
  {
    var newSize := priorSize + signedFill;
    var priorNotional := Abs(priorSize) * priorAvgCost;
    var fillNotional := fillSize * fillPrice;
    var newAvg := if newSize != 0.0 then (priorNotional + fillNotional) / Abs(newSize) else 0.0;
    PositionUpdate(newSize, newAvg, 0.0)
  }

  /** Opposite side: realize on what is closed; keep the cost of a remainder, or open the excess at the
      price of the fill. */
  function Reduced(priorSize: real, priorAvgCost: real, signedFill: real, fillPrice: real): PositionUpdate {
    var closeSize := Min(Abs(signedFill), Abs(priorSize));
    var direction := if priorSize > 0.0 then 1.0 else -1.0;
    var realizedPerShare := (fillPrice - priorAvgCost) * direction;
    var realized := realizedPerShare * closeSize;
    var newSize := priorSize + signedFill;
    if newSize == 0.0 then PositionUpdate(0.0, 0.0, realized)
    else if (priorSize > 0.0) == (newSize > 0.0) then PositionUpdate(newSize, priorAvgCost, realized)
    else PositionUpdate(newSize, fillPrice, realized)
  }

  function ApplyFillToPosition(priorSize: real, priorAvgCost: real, side: Side, fillSize: real, fillPrice: real)
    : (r: Result<PositionUpdate, ValueError>)
    ensures r.Failure? <==> fillSize <= 0.0
    ensures r.Success? ==> r.value.newSize == priorSize + Signed(side, fillSize)
  {
    if fillSize <= 0.0 then Failure(FillSizeNotPositive)
    else
      var signedFill := Signed(side, fillSize);
      if priorSize == 0.0 || (priorSize > 0.0 && signedFill > 0.0) || (priorSize < 0.0 && signedFill < 0.0) then
        Success(Grown(priorSize, priorAvgCost, signedFill, fillSize, fillPrice))
      else
        Success(Reduced(priorSize, priorAvgCost, signedFill, fillPrice))
  }

  function ApplyFillToBalance(priorBalance: real, side: Side, fillSize: real, fillPrice: real, fee: real): real {
    var notional := fillSize * fillPrice;
    if side == Buy then priorBalance - notional - fee else priorBalance + notional - fee
  }

  /** A row of the position store. */
  datatype Position = Position(size: real, averageCost: real, realizedPnl: real) {
    /** What the open size cost, with the sign of the position. */
    function Basis(): real {
      size * averageCost
    }

    /** Realized profit plus the profit of closing everything at a mark price. */
    function ValueAt(mark: real): real {
      realizedPnl + size * (mark - averageCost)
    }
  }

  const FLAT := Position(0.0, 0.0, 0.0)

  lemma FlatCostsNothing()
    ensures FLAT.Basis() == 0.0
  {
  }

  /** The part of a fill that a position sees. */
  datatype Trade = Trade(side: Side, size: real, price: real) {
    /** The ledger raises an error on a size that is not positive, and then changes nothing. */
    predicate Accepted() {
      size > 0.0
    }

    function SignedSize(): real {
      Signed(side, size)
    }
  }

  /** The row after one trade, with realized profit accumulated. */
  function Absorb(p: Position, t: Trade): Position {
    match ApplyFillToPosition(p.size, p.averageCost, t.side, t.size, t.price)
    case Failure(_) => p
    case Success(u) => Position(u.newSize, u.newAverageCost, p.realizedPnl + u.realizedPnlDelta)
  }

  /** The row after a log of trades. */
  function Fold(p: Position, ts: seq<Trade>): Position {
    if ts == [] then p else Absorb(Fold(p, ts[..|ts| - 1]), ts[|ts| - 1])
  }

  lemma {:induction false} FoldConcat(p: Position, ts: seq<Trade>, us: seq<Trade>)
    ensures Fold(p, ts + us) == Fold(Fold(p, ts), us)
    decreases |us|
  {
    if us == [] {
      assert ts + us == ts;
    } else {
      FoldConcat(p, ts, us[..|us| - 1]);
      assert (ts + us)[..|ts + us| - 1] == ts + us[..|us| - 1];
    }
  }

  /** Whether a trade adds to a position (or opens one) rather than reducing it. */
  predicate Grows(p: Position, side: Side) {
    p.size == 0.0 || (p.size > 0.0 <==> side == Buy)
  }

  // ----- The trade log ---------------------------------------------------------------------------

  lemma Scale(factor: real, low: real, high: real)
    requires 0.0 <= factor && low <= high
    ensures factor * low <= factor * high
  {
  }

  lemma QuotientTimesDivisor(x: real, d: real)
    requires d != 0.0
    ensures x / d * d == x
  {
  }

  lemma GrownKeepsCost(s: real, a: real, signedFill: real, size: real, price: real)
    requires s + signedFill != 0.0
    ensures var u := Grown(s, a, signedFill, size, price);
            && u.newSize == s + signedFill && u.realizedPnlDelta == 0.0
            && Abs(s + signedFill) * u.newAverageCost == Abs(s) * a + size * price
  {
    QuotientTimesDivisor(Abs(s) * a + size * price, Abs(s + signedFill));
  }

  /** Growth keeps the absolute cost: new size times new average is old cost plus the notional. */
  lemma GrowthAverage(p: Position, t: Trade)
    requires t.Accepted() && Grows(p, t.side)
    ensures var q := Absorb(p, t);
            && q.size == p.size + t.SignedSize()
            && Abs(q.size) == Abs(p.size) + t.size
            && Abs(q.size) * q.averageCost == Abs(p.size) * p.averageCost + t.size * t.price
            && q.realizedPnl == p.realizedPnl
            && (q.size > 0.0 <==> t.side == Buy)
  {
    hide Grown, Reduced;
    var u := Grown(p.size, p.averageCost, Signed(t.side, t.size), t.size, t.price);
    assert ApplyFillToPosition(p.size, p.averageCost, t.side, t.size, t.price) == Success(u);
    GrownKeepsCost(p.size, p.averageCost, Signed(t.side, t.size), t.size, t.price);
  }

  /** The sign of a position. */
  function Direction(p: Position): real {
    if p.size > 0.0 then 1.0 else -1.0
  }

  /** Profit of closing `closed` shares of a position at a price. */
  function ClosingProfit(p: Position, closed: real, price: real): real {
    (price - p.averageCost) * Direction(p) * closed
  }

  /** The three outcomes of a trade against a position: a remainder at the old cost, nothing, or the
      excess at the price of the trade. */
  ghost function Outcome(p: Position, size: real, price: real): Position {
    if size < Abs(p.size) then
      Position(Direction(p) * (Abs(p.size) - size), p.averageCost, p.realizedPnl + ClosingProfit(p, size, price))
    else if size == Abs(p.size) then
      Position(0.0, 0.0, p.realizedPnl + ClosingProfit(p, size, price))
    else
      Position(-Direction(p) * (size - Abs(p.size)), price, p.realizedPnl + ClosingProfit(p, Abs(p.size), price))
  }

  lemma ReducedHasThreeOutcomes(p: Position, signedFill: real, price: real)
    requires p.size != 0.0 && signedFill != 0.0 && (p.size > 0.0 <==> signedFill < 0.0)
    ensures var u := Reduced(p.size, p.averageCost, signedFill, price);
            Position(u.newSize, u.newAverageCost, p.realizedPnl + u.realizedPnlDelta) ==
            Outcome(p, Abs(signedFill), price)
  {
    var closed := Min(Abs(signedFill), Abs(p.size));
    assert Reduced(p.size, p.averageCost, signedFill, price).realizedPnlDelta == ClosingProfit(p, closed, price);
  }

  lemma ReductionOutcome(p: Position, t: Trade)
    requires t.Accepted() && !Grows(p, t.side)
    ensures t.SignedSize() == -Direction(p) * t.size && p.size == Direction(p) * Abs(p.size)
    ensures Absorb(p, t) == Outcome(p, t.size, t.price)
  {
    hide Grown, Reduced, Outcome;
    var u := Reduced(p.size, p.averageCost, Signed(t.side, t.size), t.price);
    assert ApplyFillToPosition(p.size, p.averageCost, t.side, t.size, t.price) == Success(u);
    assert Abs(Signed(t.side, t.size)) == t.size;
    ReducedHasThreeOutcomes(p, Signed(t.side, t.size), t.price);
  }

  /** Whatever the case, a trade moves basis less realized profit by exactly its signed notional. */
  lemma AbsorbMovesBasis(p: Position, t: Trade)
    requires t.Accepted()
    ensures var q := Absorb(p, t);
            && q.size == p.size + t.SignedSize()
            && q.Basis() - q.realizedPnl == p.Basis() - p.realizedPnl + t.SignedSize() * t.price
  {
    hide Absorb;
    var q := Absorb(p, t);
    if Grows(p, t.side) {
      GrowthAverage(p, t);
    } else {
      ReductionOutcome(p, t);
      var d, a := Direction(p), p.averageCost;
      if t.size < Abs(p.size) {
        assert q.Basis() == p.Basis() - d * t.size * a;
        assert ClosingProfit(p, t.size, t.price) == d * t.size * t.price - d * t.size * a;
      } else {
        assert ClosingProfit(p, Abs(p.size), t.price) == p.size * t.price - p.Basis();
        assert q.Basis() == (p.size - d * t.size) * t.price;
      }
    }
  }

  function ProfitAt(mark: real): Trade -> real {
    (t: Trade) => if t.Accepted() then t.SignedSize() * (mark - t.price) else 0.0
  }

  function CashFlow(): Trade -> real {
    (t: Trade) => if t.Accepted() then -(t.SignedSize() * t.price) else 0.0
  }

  function SizeFlow(): Trade -> real {
    (t: Trade) => if t.Accepted() then t.SignedSize() else 0.0
  }

  /** At every mark price, a trade adds to a position's value the profit of the trade on its own. */
  lemma AbsorbAddsProfit(p: Position, t: Trade, mark: real)
    ensures Absorb(p, t).ValueAt(mark) == p.ValueAt(mark) + ProfitAt(mark)(t)
    ensures Absorb(p, t).size == p.size + SizeFlow()(t)
  {
    if t.Accepted() {
      hide Absorb;
      var q := Absorb(p, t);
      AbsorbMovesBasis(p, t);
      ValueFromBasis(p, mark);
      ValueFromBasis(q, mark);
      assert q.size * mark == p.size * mark + t.SignedSize() * mark;
    }
  }

  lemma ValueFromBasis(p: Position, mark: real)
    ensures p.ValueAt(mark) == p.size * mark - (p.Basis() - p.realizedPnl)
  {
  }

  /** The three numbers of a position forget nothing that a mark price can reveal: at every mark, its
      value has grown by the profit of every trade of the log taken on its own. */
  lemma {:induction false} PositionValuesTheTradeLog(p: Position, ts: seq<Trade>, mark: real)
    ensures Fold(p, ts).ValueAt(mark) == p.ValueAt(mark) + Sum(ts, ProfitAt(mark))
    ensures Fold(p, ts).size == p.size + Sum(ts, SizeFlow())
  {
    if ts != [] {
      hide Absorb, Position.ValueAt, ProfitAt, SizeFlow;
      PositionValuesTheTradeLog(p, ts[..|ts| - 1], mark);
      AbsorbAddsProfit(Fold(p, ts[..|ts| - 1]), ts[|ts| - 1], mark);
    }
  }

  /** Once a log that started flat has closed out, realized profit is the net cash flow before fees. */
  lemma ClosedOutProfitIsCashFlow(ts: seq<Trade>)
    requires Fold(FLAT, ts).size == 0.0
    ensures Fold(FLAT, ts).realizedPnl == Sum(ts, CashFlow())
  {
    PositionValuesTheTradeLog(FLAT, ts, 0.0);
    ProfitAtZeroIsCashFlow(ts);
  }

  lemma {:induction false} ProfitAtZeroIsCashFlow(ts: seq<Trade>)
    ensures Sum(ts, ProfitAt(0.0)) == Sum(ts, CashFlow())
  {
    if ts != [] {
      ProfitAtZeroIsCashFlow(ts[..|ts| - 1]);
    }
  }

  // ----- Splitting a fill ------------------------------------------------------------------------

  lemma SameAverage(p: Position, q: Position)
    requires p.size == q.size != 0.0
    requires Abs(p.size) * p.averageCost == Abs(q.size) * q.averageCost
    ensures p.averageCost == q.averageCost
  {
    var d := Abs(p.size);
    assert d * (p.averageCost - q.averageCost) == 0.0;
  }

  /** Two pieces at one price equal the whole, also when the boundary lands on zero or past a flip. */
  lemma AbsorbTwoPieces(p: Position, side: Side, first: real, second: real, price: real)
    requires first > 0.0 && second > 0.0
    ensures Absorb(Absorb(p, Trade(side, first, price)), Trade(side, second, price))
         == Absorb(p, Trade(side, first + second, price))
  {
    hide Absorb;
    if Grows(p, side) {
      PiecesOfAGrowth(p, side, first, second, price);
    } else if first < Abs(p.size) {
      PiecesOfAReduction(p, side, first, second, price);
    } else {
      PiecesPastZero(p, side, first, second, price);
    }
  }

  lemma PiecesOfAGrowth(p: Position, side: Side, first: real, second: real, price: real)
    requires first > 0.0 && second > 0.0 && Grows(p, side)
    ensures Absorb(Absorb(p, Trade(side, first, price)), Trade(side, second, price))
         == Absorb(p, Trade(side, first + second, price))
  {
    hide Absorb;
    var half := Absorb(p, Trade(side, first, price));
    GrowthAverage(p, Trade(side, first, price));
    GrowthAverage(half, Trade(side, second, price));
    GrowthAverage(p, Trade(side, first + second, price));
    assert (first + second) * price == first * price + second * price;
    SameAverage(Absorb(half, Trade(side, second, price)), Absorb(p, Trade(side, first + second, price)));
  }

  lemma PiecesPastZero(p: Position, side: Side, first: real, second: real, price: real)
    requires first > 0.0 && second > 0.0 && !Grows(p, side) && Abs(p.size) <= first
    ensures Absorb(Absorb(p, Trade(side, first, price)), Trade(side, second, price))
         == Absorb(p, Trade(side, first + second, price))
  {
    hide Absorb;
    var half := Absorb(p, Trade(side, first, price));
    ReductionOutcome(p, Trade(side, first, price));
    ReductionOutcome(p, Trade(side, first + second, price));
    GrowthAverage(half, Trade(side, second, price));
    var done := Absorb(half, Trade(side, second, price));
    assert Abs(half.size) * half.averageCost == Abs(half.size) * price;
    assert Abs(done.size) * price == Abs(half.size) * price + second * price;
    SameAverage(done, Absorb(p, Trade(side, first + second, price)));
  }

  lemma PiecesOfAReduction(p: Position, side: Side, first: real, second: real, price: real)
    requires first > 0.0 && second > 0.0
    requires !Grows(p, side) && first < Abs(p.size)
    ensures Absorb(Absorb(p, Trade(side, first, price)), Trade(side, second, price))
         == Absorb(p, Trade(side, first + second, price))
  {
    hide Absorb;
    var half := Absorb(p, Trade(side, first, price));
    ReductionOutcome(p, Trade(side, first, price));
    ReductionOutcome(p, Trade(side, first + second, price));
    ReductionOutcome(half, Trade(side, second, price));
    assert Direction(half) == Direction(p) && Abs(half.size) == Abs(p.size) - first;
    ClosingInTwo(p, half, first, if second < Abs(half.size) then second else Abs(half.size), price);
  }

  lemma ClosingInTwo(p: Position, half: Position, first: real, rest: real, price: real)
    requires half.averageCost == p.averageCost && Direction(half) == Direction(p)
    ensures ClosingProfit(p, first, price) + ClosingProfit(half, rest, price) == ClosingProfit(p, first + rest, price)
  {
    var perShare := (price - p.averageCost) * Direction(p);
    assert perShare * (first + rest) == perShare * first + perShare * rest;
  }

  function Pieces(side: Side, price: real, sizes: seq<real>): (ts: seq<Trade>)
    ensures |ts| == |sizes|
    ensures forall i :: 0 <= i < |sizes| ==> ts[i] == Trade(side, sizes[i], price)
  {
    seq(|sizes|, i requires 0 <= i < |sizes| => Trade(side, sizes[i], price))
  }

  /** Any way of cutting a fill into positive pieces at its price gives the same three numbers, from
      every prior position. */
  lemma {:induction false} SplitAnywhere(p: Position, side: Side, price: real, sizes: seq<real>)
    requires sizes != []
    requires forall i :: 0 <= i < |sizes| ==> sizes[i] > 0.0
    ensures Sum(sizes, Self()) > 0.0
    ensures Fold(p, Pieces(side, price, sizes)) == Absorb(p, Trade(side, Sum(sizes, Self()), price))
  {
    var init, last := sizes[..|sizes| - 1], sizes[|sizes| - 1];
    var ts := Pieces(side, price, sizes);
    assert ts[..|ts| - 1] == Pieces(side, price, init);
    if init == [] {
      assert Sum(init, Self()) == 0.0;
      assert Fold(p, Pieces(side, price, init)) == p;
    } else {
      SplitAnywhere(p, side, price, init);
      AbsorbTwoPieces(p, side, Sum(init, Self()), last, price);
    }
  }

  /** ... and hence splitting a fill in the middle of a log changes nothing at its end. */
  lemma SplitInsideALog(p: Position, before: seq<Trade>, side: Side, price: real, sizes: seq<real>, after: seq<Trade>)
    requires sizes != []
    requires forall i :: 0 <= i < |sizes| ==> sizes[i] > 0.0
    ensures Fold(p, before + Pieces(side, price, sizes) + after)
         == Fold(p, before + [Trade(side, Sum(sizes, Self()), price)] + after)
  {
    var whole := [Trade(side, Sum(sizes, Self()), price)];
    FoldConcat(p, before + Pieces(side, price, sizes), after);
    FoldConcat(p, before, Pieces(side, price, sizes));
    FoldConcat(p, before + whole, after);
    FoldConcat(p, before, whole);
    SplitAnywhere(Fold(p, before), side, price, sizes);
    assert whole[..0] == [];
  }

  // ----- Reordering fills of one side ------------------------------------------------------------

  predicate AllOn(side: Side, ts: seq<Trade>) {
    forall i :: 0 <= i < |ts| ==> ts[i].side == side && ts[i].Accepted()
  }

  function Quantity(): Trade -> real {
    (t: Trade) => t.size
  }

  function Notional(): Trade -> real {
    (t: Trade) => t.size * t.price
  }

  /** What growth on one side makes of a position, given the quantity and the notional it adds. */
  ghost predicate GrownBy(p: Position, side: Side, quantity: real, notional: real, q: Position) {
    && Grows(q, side)
    && q.realizedPnl == p.realizedPnl
    && q.size == p.size + Signed(side, quantity)
    && Abs(q.size) == Abs(p.size) + quantity
    && Abs(q.size) * q.averageCost == Abs(p.size) * p.averageCost + notional
  }

  lemma GrownByOneMore(p: Position, side: Side, quantity: real, notional: real, q: Position, t: Trade)
    requires Grows(p, side) && 0.0 <= quantity && GrownBy(p, side, quantity, notional, q)
    requires t.side == side && t.Accepted()
    ensures GrownBy(p, side, quantity + t.size, notional + t.size * t.price, Absorb(q, t))
  {
    hide Absorb;
    GrowthAverage(q, t);
  }

  lemma {:induction false} GrowthOverALog(p: Position, side: Side, ts: seq<Trade>)
    requires Grows(p, side) && AllOn(side, ts)
    ensures GrownBy(p, side, Sum(ts, Quantity()), Sum(ts, Notional()), Fold(p, ts))
    ensures ts == [] || Sum(ts, Quantity()) > 0.0
  {
    hide Absorb;
    if ts == [] {
      assert GrownBy(p, side, 0.0, 0.0, p);
    } else {
      hide GrownBy, Grows;
      var init, t := ts[..|ts| - 1], ts[|ts| - 1];
      GrowthOverALog(p, side, init);
      assert init == [] ==> Sum(init, Quantity()) == 0.0;
      var quantity, notional := Sum(init, Quantity()), Sum(init, Notional());
      GrownByOneMore(p, side, quantity, notional, Fold(p, init), t);
      assert Sum(ts, Quantity()) == quantity + t.size;
      assert Sum(ts, Notional()) == notional + t.size * t.price;
    }
  }

  /** From a flat or same-side position, fills of one side may arrive in any order: size and average
      cost come out the same, and nothing is realized. */
  lemma SameSideFillsCommute(p: Position, side: Side, ts: seq<Trade>, us: seq<Trade>)
    requires Grows(p, side) && AllOn(side, ts)
    requires multiset(ts) == multiset(us)
    ensures Fold(p, us) == Fold(p, ts)
    ensures Fold(p, ts).realizedPnl == p.realizedPnl
  {
    hide Absorb, Fold;
    assert |us| == |multiset(us)| == |multiset(ts)| == |ts|;
    forall i | 0 <= i < |us|
      ensures us[i].side == side && us[i].Accepted()
    {
      assert us[i] in multiset(ts);
    }
    GrowthOverALog(p, side, ts);
    GrowthOverALog(p, side, us);
    SumPermutation(ts, us, Quantity());
    SumPermutation(ts, us, Notional());
    if ts != [] {
      SameAverage(Fold(p, ts), Fold(p, us));
    }
  }
}
