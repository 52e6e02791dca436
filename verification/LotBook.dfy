/** A position as the open lots it stands for, and the three-number position as a refinement of it. */
module LotBook {
  import opened Domain
  import opened Sums
  import opened PositionMath

  /** What is left of one opening or growing fill, at the price it was made. */
  datatype Lot = Lot(quantity: real, price: real)

  datatype Lots = Lots(side: Side, open: seq<Lot>, realizedPnl: real)

  function LotQuantity(): Lot -> real {
    (l: Lot) => l.quantity
  }

  function LotCost(): Lot -> real {
    (l: Lot) => l.quantity * l.price
  }

  function Total(open: seq<Lot>): real {
    Sum(open, LotQuantity())
  }

  function Cost(open: seq<Lot>): real {
    Sum(open, LotCost())
  }

  /** Every lot keeps the same fraction of itself. */
  function Shrink(open: seq<Lot>, kept: real): (r: seq<Lot>)
    ensures |r| == |open|
    ensures forall i :: 0 <= i < |open| ==> r[i] == Lot(open[i].quantity * kept, open[i].price)
  {
    seq(|open|, i requires 0 <= i < |open| => Lot(open[i].quantity * kept, open[i].price))
  }

  /** Profit of closing a fraction of every lot at a price, lot by lot. */
  function LotProfit(side: Side, closed: real, price: real): Lot -> real {
    (l: Lot) => Signed(side, l.quantity * closed * (price - l.price))
  }

  /** Growth appends a lot; a reduction shrinks all lots pro rata; an excess starts over at its price. */
  function AbsorbLots(b: Lots, t: Trade): Lots {
    if !t.Accepted() then b
    else if b.open == [] || b.side == t.side then
      Lots(t.side, b.open + [Lot(t.size, t.price)], b.realizedPnl)
    else
      var total := Total(b.open);
      var closed := if t.size < total then t.size / total else 1.0;
      var realized := b.realizedPnl + Sum(b.open, LotProfit(b.side, closed, t.price));
      if t.size < total then Lots(b.side, Shrink(b.open, 1.0 - closed), realized)
      else if t.size == total then Lots(b.side, [], realized)
      else Lots(t.side, [Lot(t.size - total, t.price)], realized)
  }

  function FoldLots(b: Lots, ts: seq<Trade>): Lots {
    if ts == [] then b else AbsorbLots(FoldLots(b, ts[..|ts| - 1]), ts[|ts| - 1])
  }

  ghost predicate Positive(open: seq<Lot>) {
    forall i :: 0 <= i < |open| ==> open[i].quantity > 0.0
  }

  /** The three numbers are the signed total, the mean price and the realized profit of the lots. */
  ghost predicate Agrees(p: Position, b: Lots) {
    && Positive(b.open)
    && p.size == Signed(b.side, Total(b.open))
    && Total(b.open) * p.averageCost == Cost(b.open)
    && (b.open == [] ==> p.averageCost == 0.0)
    && p.realizedPnl == b.realizedPnl
  }

  lemma {:induction false} TotalIsPositive(open: seq<Lot>)
    requires Positive(open)
    ensures open == [] <==> Total(open) == 0.0
    ensures 0.0 <= Total(open)
  {
    if open != [] {
      TotalIsPositive(open[..|open| - 1]);
    }
  }

  lemma ShrinkInit(open: seq<Lot>, kept: real)
    requires open != []
    ensures Shrink(open, kept)[..|open| - 1] == Shrink(open[..|open| - 1], kept)
  {
    var init := open[..|open| - 1];
    forall i | 0 <= i < |init|
      ensures Shrink(open, kept)[i] == Shrink(init, kept)[i]
    {
      assert init[i] == open[i];
    }
  }

  lemma {:induction false} ShrinkScales(open: seq<Lot>, kept: real)
    ensures Total(Shrink(open, kept)) == Total(open) * kept
    ensures Cost(Shrink(open, kept)) == Cost(open) * kept
  {
    if open != [] {
      var init, l := open[..|open| - 1], open[|open| - 1];
      ShrinkScales(init, kept);
      ShrinkInit(open, kept);
      assert (l.quantity * kept) * l.price == (l.quantity * l.price) * kept;
      assert (Total(init) + l.quantity) * kept == Total(init) * kept + l.quantity * kept;
      assert (Cost(init) + l.quantity * l.price) * kept == Cost(init) * kept + (l.quantity * l.price) * kept;
    }
  }

  lemma {:induction false} ProfitOfAllLots(open: seq<Lot>, side: Side, closed: real, price: real)
    ensures Sum(open, LotProfit(side, closed, price)) == Signed(side, closed * (Total(open) * price - Cost(open)))
  {
    if open != [] {
      var init, l := open[..|open| - 1], open[|open| - 1];
      ProfitOfAllLots(init, side, closed, price);
      LotProfitDistributes(Total(init), Cost(init), l, closed, price);
    }
  }

  lemma LotProfitDistributes(total: real, cost: real, l: Lot, closed: real, price: real)
    ensures closed * ((total + l.quantity) * price - (cost + l.quantity * l.price))
         == closed * (total * price - cost) + l.quantity * closed * (price - l.price)
  {
    var x := total * price - cost;
    var y := l.quantity * price - l.quantity * l.price;
    assert (total + l.quantity) * price - (cost + l.quantity * l.price) == x + y;
    assert closed * (x + y) == closed * x + closed * y;
    assert l.quantity * closed * (price - l.price) == closed * y;
  }

  lemma AppendLot(open: seq<Lot>, l: Lot)
    ensures Total(open + [l]) == Total(open) + l.quantity
    ensures Cost(open + [l]) == Cost(open) + l.quantity * l.price
  {
    assert (open + [l])[..|open + [l]| - 1] == open;
  }

  lemma FewLots(l: Lot)
    ensures Total([]) == 0.0 && Cost([]) == 0.0
    ensures Total([l]) == l.quantity && Cost([l]) == l.quantity * l.price
  {
    SumSingle(l, LotQuantity());
    SumSingle(l, LotCost());
  }

  lemma FractionClosed(x: real, total: real)
    requires 0.0 < x < total
    ensures x / total * total == x && 0.0 < 1.0 - x / total
  {
    var f := x / total;
    QuotientTimesDivisor(x, total);
    assert (1.0 - f) * total == total - x;
    if 1.0 - f <= 0.0 {
      Scale(total, 1.0 - f, 0.0);
    }
  }

  /** One trade keeps the position and its lots in agreement. */
  lemma AbsorbKeepsAgreement(p: Position, b: Lots, t: Trade)
    requires Agrees(p, b)
    ensures Agrees(Absorb(p, t), AbsorbLots(b, t))
  {
    TotalIsPositive(b.open);
    if t.Accepted() {
      if b.open == [] || b.side == t.side {
        GrowthKeepsAgreement(p, b, t);
      } else {
        ReductionKeepsAgreement(p, b, t);
      }
    }
  }

  lemma GrowthKeepsAgreement(p: Position, b: Lots, t: Trade)
    requires Agrees(p, b) && t.Accepted() && (b.open == [] || b.side == t.side)
    ensures Agrees(Absorb(p, t), AbsorbLots(b, t))
  {
    hide Absorb;
    TotalIsPositive(b.open);
    GrowthAverage(p, t);
    AppendLot(b.open, Lot(t.size, t.price));
  }

  /** Closing a fraction of every lot realizes what closing that fraction of the position does. */
  lemma RealizedAgrees(p: Position, b: Lots, closed: real, quantity: real, price: real)
    requires Agrees(p, b) && b.open != [] && Total(b.open) > 0.0 && quantity == closed * Total(b.open)
    ensures p.realizedPnl + ClosingProfit(p, quantity, price) ==
            b.realizedPnl + Sum(b.open, LotProfit(b.side, closed, price))
  {
    hide Sum, ClosingProfit;
    ProfitOfAllLots(b.open, b.side, closed, price);
    ProRataProfit(p, b, closed, quantity, price);
  }

  lemma RemainderAgrees(p: Position, b: Lots, size: real, realizedPnl: real)
    requires Agrees(p, b) && b.open != [] && 0.0 < size < Total(b.open)
    ensures Agrees(Position(Direction(p) * (Abs(p.size) - size), p.averageCost, realizedPnl),
                   Lots(b.side, Shrink(b.open, 1.0 - size / Total(b.open)), realizedPnl))
  {
    hide Sum, Shrink;
    var total, kept := Total(b.open), 1.0 - size / Total(b.open);
    FractionClosed(size, total);
    ShrinkScales(b.open, kept);
    ShrinkStaysPositive(b.open, kept);
    assert total * kept == total - size;
    assert (total * kept) * p.averageCost == Cost(b.open) * kept;
  }

  lemma ExcessAgrees(p: Position, b: Lots, t: Trade, realizedPnl: real)
    requires Agrees(p, b) && b.open != [] && 0.0 < Total(b.open) < t.size && b.side != t.side
    ensures Agrees(Position(-Direction(p) * (t.size - Abs(p.size)), t.price, realizedPnl),
                   Lots(t.side, [Lot(t.size - Total(b.open), t.price)], realizedPnl))
  {
    hide Sum;
    FewLots(Lot(t.size - Total(b.open), t.price));
  }

  lemma NothingAgrees(side: Side, realizedPnl: real)
    ensures Agrees(Position(0.0, 0.0, realizedPnl), Lots(side, [], realizedPnl))
  {
    FewLots(Lot(0.0, 0.0));
  }

  lemma ReductionKeepsAgreement(p: Position, b: Lots, t: Trade)
    requires Agrees(p, b) && t.Accepted() && b.open != [] && b.side != t.side
    ensures Agrees(Absorb(p, t), AbsorbLots(b, t))
  {
    TotalIsPositive(b.open);
    OppositeSides(p, b, t);
    hide Absorb, Sum, Shrink, ClosingProfit, Agrees, Total, Cost;
    ReductionOutcome(p, t);
    var total := Total(b.open);
    if t.size < total {
      FractionClosed(t.size, total);
      RealizedAgrees(p, b, t.size / total, t.size, t.price);
      RemainderAgrees(p, b, t.size, AbsorbLots(b, t).realizedPnl);
    } else {
      RealizedAgrees(p, b, 1.0, total, t.price);
      if t.size == total {
        NothingAgrees(b.side, AbsorbLots(b, t).realizedPnl);
      } else {
        ExcessAgrees(p, b, t, AbsorbLots(b, t).realizedPnl);
      }
    }
  }

  lemma OppositeSides(p: Position, b: Lots, t: Trade)
    requires Agrees(p, b) && Total(b.open) > 0.0 && b.side != t.side
    ensures !Grows(p, t.side) && Abs(p.size) == Total(b.open)
  {
  }

  lemma ShrinkStaysPositive(open: seq<Lot>, kept: real)
    requires Positive(open) && 0.0 < kept
    ensures Positive(Shrink(open, kept))
  {
  }

  lemma ProRataProfit(p: Position, b: Lots, closed: real, quantity: real, price: real)
    requires Agrees(p, b) && b.open != [] && Total(b.open) > 0.0 && quantity == closed * Total(b.open)
    ensures ClosingProfit(p, quantity, price) == Signed(b.side, closed * (Total(b.open) * price - Cost(b.open)))
  {
    var total, a := Total(b.open), p.averageCost;
    assert Direction(p) == Signed(b.side, 1.0);
    assert (price - a) * (closed * total) == closed * (total * price - total * a);
  }

  /** After any log from flat, the stored position is the summary of the open lots. */
  lemma {:induction false} PositionSummarizesLots(ts: seq<Trade>, side: Side)
    ensures Agrees(Fold(FLAT, ts), FoldLots(Lots(side, [], 0.0), ts))
  {
    if ts != [] {
      hide Agrees, Absorb, AbsorbLots;
      PositionSummarizesLots(ts[..|ts| - 1], side);
      AbsorbKeepsAgreement(Fold(FLAT, ts[..|ts| - 1]), FoldLots(Lots(side, [], 0.0), ts[..|ts| - 1]), ts[|ts| - 1]);
    }
  }

  // ----- The average cost lies between the prices paid --------------------------------------------

  /** Whether a trade opens a position from flat or flips it to the other side. */
  predicate Opens(p: Position, t: Trade) {
    t.Accepted() && (p.size == 0.0 || (!Grows(p, t.side) && Abs(p.size) < t.size))
  }

  /** The index of the trade that last opened or flipped the position. */
  function Epoch(ts: seq<Trade>): (e: nat)
    ensures e <= |ts|
  {
    if ts == [] then 0
    else if Opens(Fold(FLAT, ts[..|ts| - 1]), ts[|ts| - 1]) then |ts| - 1
    else Epoch(ts[..|ts| - 1])
  }

  /** An accepted trade of this side and price happened no earlier than `from`. */
  ghost predicate TradedSince(ts: seq<Trade>, from: nat, side: Side, price: real) {
    exists j :: from <= j < |ts| && ts[j].Accepted() && ts[j].side == side && ts[j].price == price
  }

  ghost predicate PricedSince(b: Lots, ts: seq<Trade>, from: nat) {
    forall i :: 0 <= i < |b.open| ==> TradedSince(ts, from, b.side, b.open[i].price)
  }

  lemma {:induction false} LotsArePricedSinceEpoch(ts: seq<Trade>, side: Side)
    ensures PricedSince(FoldLots(Lots(side, [], 0.0), ts), ts, Epoch(ts))
  {
    if ts != [] {
      hide Absorb, AbsorbLots, PricedSince, Opens;
      var init, t := ts[..|ts| - 1], ts[|ts| - 1];
      PositionSummarizesLots(init, side);
      LotsArePricedSinceEpoch(init, side);
      PricesOneMore(Fold(FLAT, init), FoldLots(Lots(side, [], 0.0), init), init, t, Epoch(init));
      assert init + [t] == ts;
    }
  }

  lemma PricesOneMore(p: Position, b: Lots, init: seq<Trade>, t: Trade, from: nat)
    requires Positive(b.open) && p.size == Signed(b.side, Total(b.open))
    requires PricedSince(b, init, from) && from <= |init|
    ensures PricedSince(AbsorbLots(b, t), init + [t], if Opens(p, t) then |init| else from)
  {
    hide Sum, Shrink;
    var ts := init + [t];
    var after := AbsorbLots(b, t);
    TotalIsPositive(b.open);
    assert ts[|init|] == t;
    var since := if Opens(p, t) then |init| else from;
    forall i | 0 <= i < |after.open|
      ensures TradedSince(ts, since, after.side, after.open[i].price)
    {
      if after.open[i].price == t.price && after.side == t.side && t.Accepted() {
        assert ts[|init|].price == after.open[i].price;
      } else {
        assert since == from && after.side == b.side && i < |b.open| && after.open[i].price == b.open[i].price;
        assert TradedSince(init, from, b.side, b.open[i].price);
        var j :| from <= j < |init| && init[j].Accepted() && init[j].side == b.side && init[j].price == b.open[i].price;
        assert ts[j] == init[j];
      }
    }
  }

  lemma {:induction false} MeanIsBounded(open: seq<Lot>, lo: real, hi: real)
    requires Positive(open)
    requires forall i :: 0 <= i < |open| ==> lo <= open[i].price <= hi
    ensures lo * Total(open) <= Cost(open) <= hi * Total(open)
  {
    if open != [] {
      var init, l := open[..|open| - 1], open[|open| - 1];
      MeanIsBounded(init, lo, hi);
      assert lo * (Total(init) + l.quantity) == lo * Total(init) + lo * l.quantity;
      assert hi * (Total(init) + l.quantity) == hi * Total(init) + hi * l.quantity;
      Scale(l.quantity, lo, l.price);
      Scale(l.quantity, l.price, hi);
    }
  }

  /** The average cost of an open position lies between the lowest and the highest price of the fills
      on its own side since it last opened or flipped. */
  lemma AverageCostIsBetweenPricesPaid(ts: seq<Trade>, lo: real, hi: real)
    requires Fold(FLAT, ts).size != 0.0
    requires forall j :: Epoch(ts) <= j < |ts| && ts[j].Accepted() && Grows(Fold(FLAT, ts), ts[j].side) ==>
               lo <= ts[j].price <= hi
    ensures lo <= Fold(FLAT, ts).averageCost <= hi
  {
    hide Fold, FoldLots, Epoch, Sum;
    var p, b := Fold(FLAT, ts), FoldLots(Lots(Buy, [], 0.0), ts);
    PositionSummarizesLots(ts, Buy);
    TotalIsPositive(b.open);
    LotsArePricedSinceEpoch(ts, Buy);
    forall i | 0 <= i < |b.open|
      ensures lo <= b.open[i].price <= hi
    {
      assert TradedSince(ts, Epoch(ts), b.side, b.open[i].price);
      var j :| Epoch(ts) <= j < |ts| && ts[j].Accepted() && ts[j].side == b.side && ts[j].price == b.open[i].price;
    }
    MeanIsBounded(b.open, lo, hi);
    BetweenBounds(p.averageCost, Total(b.open), Cost(b.open), lo, hi);
  }

  lemma BetweenBounds(mean: real, total: real, cost: real, lo: real, hi: real)
    requires 0.0 < total && total * mean == cost && lo * total <= cost <= hi * total
    ensures lo <= mean <= hi
  {
    assert (mean - lo) * total >= 0.0;
    assert (hi - mean) * total >= 0.0;
  }
}
