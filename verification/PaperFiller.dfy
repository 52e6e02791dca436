/** The paper-mode fill simulator: one price level, capped by its depth, rounded toward zero. */
module PaperFiller {
  import opened Domain
  import opened DecimalHelpers
  import opened Sums

  datatype BookSnapshot = BookSnapshot(
    bestBid: Option<real>,
    bestAsk: Option<real>,
    bidDepthAtBest: real,
    askDepthAtBest: real)

  datatype PaperFillResult = PaperFillResult(filledSize: real, fillPrice: real, fee: real)

  const PAPER_FEE_PCT: real := 0.02

  /** The best price and its depth on the side of the book that a taker of `side` hits. */
  function Opposite(side: Side, book: BookSnapshot): (Option<real>, real) {
    if side == Buy then (book.bestAsk, book.askDepthAtBest) else (book.bestBid, book.bidDepthAtBest)
  }

  /** Whether a limit reaches a price: at or above an ask, at or below a bid. */
  predicate Crosses(side: Side, limitPrice: real, best: real) {
    if side == Buy then best <= limitPrice else limitPrice <= best
  }

  function Fee(filled: real, price: real, feePct: real): (r: real)
    ensures IsSizeTick(r)
  {
    QuantizeSize(filled * price * feePct)
  }

  function SimulateFill(side: Side, size: real, limitPrice: real, book: BookSnapshot, feePct: real := PAPER_FEE_PCT)
    : (r: Option<PaperFillResult>)
    ensures r.Some? ==> 0.0 < r.value.filledSize <= size
    ensures r.Some? ==> IsSizeTick(r.value.filledSize) && IsPriceTick(r.value.fillPrice)
  {
    if side == Buy then
      if book.bestAsk.None? then None
      else if limitPrice < book.bestAsk.value then None
      else Settle(size, book.askDepthAtBest, book.bestAsk.value, feePct)
    else
      if book.bestBid.None? then None
      else if limitPrice > book.bestBid.value then None
      else Settle(size, book.bidDepthAtBest, book.bestBid.value, feePct)
  }

  function Settle(size: real, available: real, best: real, feePct: real): (r: Option<PaperFillResult>)
    ensures r.Some? ==> 0.0 < r.value.filledSize <= size && r.value.filledSize <= available
    ensures r.Some? ==> IsSizeTick(r.value.filledSize) && IsPriceTick(r.value.fillPrice)
  {
    var filled := QuantizeSize(Min(size, available));
    if filled <= 0.0 then None
    else
      var fillPrice := QuantizePrice(best);
      Some(PaperFillResult(filled, fillPrice, Fee(filled, fillPrice, feePct)))
  }

  /** An order fills exactly when its limit reaches the best opposite price and both its size and the
      depth hold at least one micro-share; it then takes the largest whole number of micro-shares
      that neither its size nor the depth exceeds. */
  lemma FillsExactlyWhenMarketable(
    side: Side, size: real, limitPrice: real, book: BookSnapshot, feePct: real, tick: real)
    requires IsSizeTick(tick)
    ensures var (best, depth) := Opposite(side, book);
            var r := SimulateFill(side, size, limitPrice, book, feePct);
            && (r.Some? <==> best.Some? && Crosses(side, limitPrice, best.value) && 0.000001 <= Min(size, depth))
            && (r.Some? ==> (tick <= r.value.filledSize <==> tick <= Min(size, depth)))
  {
    var (_, depth) := Opposite(side, book);
    var room := Min(size, depth);
    assert IsSizeTick(0.000001);
    SizeTickBound(room, 0.000001);
    SizeTickBound(room, tick);
  }

  lemma SettleIsExact(size: real, available: real, best: real)
    ensures var r := Settle(size, available, best, PAPER_FEE_PCT);
            r.Some? ==>
              && r.value.filledSize <= Min(size, available) < r.value.filledSize + 0.000001
              && r.value.fillPrice == QuantizePrice(best)
              && r.value.fee == Fee(r.value.filledSize, r.value.fillPrice, 0.02)
  {
    hide QuantizePrice, QuantizeSize, Fee, IsSizeTick, IsPriceTick;
  }

  /** A fill is everything that size and depth allow, at the quantized best price, with a fee of two
      per cent. */
  lemma FillIsExact(side: Side, size: real, limitPrice: real, book: BookSnapshot)
    ensures var (best, depth) := Opposite(side, book);
            var r := SimulateFill(side, size, limitPrice, book);
            r.Some? ==>
              && best.Some?
              && r.value.filledSize <= Min(size, depth) < r.value.filledSize + 0.000001
              && r.value.fillPrice == QuantizePrice(best.value)
              && r.value.fee == Fee(r.value.filledSize, r.value.fillPrice, 0.02)
  {
    hide Settle, QuantizePrice, Fee, IsSizeTick, IsPriceTick;
    var (best, depth) := Opposite(side, book);
    if best.Some? {
      SettleIsExact(size, depth, best.value);
    }
  }

  /** An order whose size is exactly the depth fills whole. */
  lemma WholeFill(side: Side, size: real, limitPrice: real, best: real, book: BookSnapshot)
    requires 0.0 < size && IsSizeTick(size) && Crosses(side, limitPrice, best)
    requires Opposite(side, book) == (Some(best), size)
    ensures var r := SimulateFill(side, size, limitPrice, book);
            r == Some(PaperFillResult(size, QuantizePrice(best), Fee(size, QuantizePrice(best), PAPER_FEE_PCT)))
  {
    SizeTickBound(size, size);
  }

  /** A book that offers exactly this size at exactly this price, on both sides. */
  function OfferAt(price: real, size: real): BookSnapshot {
    BookSnapshot(Some(price), Some(price), size, size)
  }

  ghost predicate RespectsLimit(side: Side, limitPrice: real, price: real) {
    if side == Buy then price <= limitPrice else limitPrice <= price
  }

  /** The limit a trader can rely on. Rounding is toward zero, so for a sell it moves a positive bid
      to the worse side: the promise holds for every book exactly when the limit is a whole number of
      mills, or has the sign for which rounding helps. */
  ghost predicate SafeLimit(side: Side, limitPrice: real) {
    IsPriceTick(limitPrice) || (if side == Buy then 0.0 <= limitPrice else limitPrice <= 0.0)
  }

  lemma FillRespectsSafeLimit(side: Side, size: real, limitPrice: real, book: BookSnapshot, feePct: real)
    requires SafeLimit(side, limitPrice)
    ensures var r := SimulateFill(side, size, limitPrice, book, feePct);
            r.Some? ==> RespectsLimit(side, limitPrice, r.value.fillPrice)
  {
    var (best, _) := Opposite(side, book);
    if best.Some? && IsPriceTick(limitPrice) {
      PriceTickBound(best.value, limitPrice);
    }
  }

  /** No fill is worse than the limit, whatever the book and the size, if and only if the limit is safe. */
  lemma LimitHonouredIffSafe(side: Side, limitPrice: real)
    ensures SafeLimit(side, limitPrice) <==>
            forall size: real, book: BookSnapshot ::
              var r := SimulateFill(side, size, limitPrice, book);
              r.Some? ==> RespectsLimit(side, limitPrice, r.value.fillPrice)
  {
    if SafeLimit(side, limitPrice) {
      forall size: real, book: BookSnapshot
        ensures var r := SimulateFill(side, size, limitPrice, book);
                r.Some? ==> RespectsLimit(side, limitPrice, r.value.fillPrice)
      {
        FillRespectsSafeLimit(side, size, limitPrice, book, PAPER_FEE_PCT);
      }
    } else {
      var book := BookSnapshot(Some(limitPrice), Some(limitPrice), 1.0, 1.0);
      FillsExactlyWhenMarketable(side, 1.0, limitPrice, book, PAPER_FEE_PCT, 0.000001);
      var r := SimulateFill(side, 1.0, limitPrice, book);
      assert r.value.fillPrice == QuantizePrice(limitPrice) != limitPrice;
    }
  }

  /** For a non-negative rate and notional the fee is the largest whole number of micro-units that
      does not exceed filled * price * rate. */
  lemma FeeIsLargestMicroUnit(filled: real, price: real, feePct: real, tick: real)
    requires 0.0 <= filled && 0.0 <= price && 0.0 <= feePct && IsSizeTick(tick)
    ensures 0.0 <= Fee(filled, price, feePct) <= filled * price * feePct
    ensures tick <= Fee(filled, price, feePct) <==> tick <= filled * price * feePct
  {
    assert 0.0 <= filled * price;
    assert 0.0 <= filled * price * feePct;
    SizeTickBound(filled * price * feePct, tick);
  }

  function FeeAt(price: real, feePct: real): real -> real {
    filled => Fee(filled, price, feePct)
  }

  /** Cutting an order into pieces filled at one price never costs more in fees than filling it whole,
      and saves less than one micro-unit per piece. */
  lemma {:induction false} SplittingSavesUnderAMicroUnitEach(pieces: seq<real>, price: real, feePct: real)
    requires forall i :: 0 <= i < |pieces| ==> 0.0 <= pieces[i]
    requires 0.0 <= price && 0.0 <= feePct
    ensures 0.0 <= Sum(pieces, Self())
    ensures Sum(pieces, FeeAt(price, feePct)) <= Fee(Sum(pieces, Self()), price, feePct)
    ensures pieces != [] ==>
              Fee(Sum(pieces, Self()), price, feePct) <
              Sum(pieces, FeeAt(price, feePct)) + |pieces| as real * 0.000001
  {
    if pieces == [] {
      assert 0.0 * price * feePct == 0.0;
    } else {
      var init, last := pieces[..|pieces| - 1], pieces[|pieces| - 1];
      SplittingSavesUnderAMicroUnitEach(init, price, feePct);
      var whole, rest := Sum(pieces, Self()), Sum(init, Self());
      MergeTwo(rest, last, price, feePct);
      if init == [] {
        assert rest == 0.0 && whole == last;
      }
    }
  }

  lemma MergeTwo(a: real, b: real, price: real, feePct: real)
    requires 0.0 <= a && 0.0 <= b && 0.0 <= price && 0.0 <= feePct
    ensures var merged, paid := Fee(a + b, price, feePct), Fee(a, price, feePct) + Fee(b, price, feePct);
            paid <= merged < paid + 0.000002 && merged <= paid + 0.000001
  {
    var x, y := a * price * feePct, b * price * feePct;
    assert 0.0 <= a * price && 0.0 <= b * price;
    assert (a + b) * price == a * price + b * price;
    assert (a + b) * price * feePct == x + y;
    UnitsAddUp(x, y);
  }

  lemma UnitsAddUp(x: real, y: real)
    requires 0.0 <= x && 0.0 <= y
    ensures var merged, paid := QuantizeSize(x + y), QuantizeSize(x) + QuantizeSize(y);
            paid <= merged <= paid + 0.000001
  {
    var i, j, k := RoundDown(x * 1000000.0), RoundDown(y * 1000000.0), RoundDown((x + y) * 1000000.0);
    assert (x + y) * 1000000.0 == x * 1000000.0 + y * 1000000.0;
    assert i + j <= k <= i + j + 1;
  }
}
