/** No gated run takes the cost of a user's long positions above the cap. */
module ExposureCap {
  import opened Domain
  import opened DecimalHelpers
  import opened Sums
  import opened PositionMath
  import opened PaperFiller
  import opened RiskEngine
  import opened Ledgers
  import opened Execution
  import opened IntentStream
  import opened Pipeline

  /** A book whose ask, if any, the filler does not round to a negative price. */
  predicate AskNotNegative(book: Option<BookSnapshot>) {
    book.Some? && book.value.bestAsk.Some? ==> 0.0 <= QuantizePrice(book.value.bestAsk.value)
  }

  predicate LongsCostSomething(p: Position) {
    p.size > 0.0 ==> 0.0 <= p.averageCost
  }

  lemma BuyAddsAtMostItsNotional(p: Position, t: Trade)
    requires t.Accepted() && t.side == Buy && 0.0 <= t.price && LongsCostSomething(p)
    ensures LongsCostSomething(Absorb(p, t))
    ensures CostOfLong(Absorb(p, t)) <= CostOfLong(p) + t.size * t.price
  {
    hide Absorb;
    var q := Absorb(p, t);
    Scale(t.size, 0.0, t.price);
    if Grows(p, Buy) {
      GrowthAverage(p, t);
      if p.size > 0.0 {
        Scale(p.size, 0.0, p.averageCost);
      }
      NotNegative(q.size, q.averageCost);
    } else {
      ReductionOutcome(p, t);
      if q.size > 0.0 {
        assert q.size <= t.size;
        Scale(t.price, q.size, t.size);
      }
    }
  }

  lemma NotNegative(d: real, x: real)
    requires 0.0 < d && 0.0 <= d * x
    ensures 0.0 <= x
  {
  }

  lemma SellNeverAddsCost(p: Position, t: Trade)
    requires t.Accepted() && t.side == Sell && LongsCostSomething(p)
    ensures LongsCostSomething(Absorb(p, t))
    ensures CostOfLong(Absorb(p, t)) <= CostOfLong(p)
  {
    hide Absorb;
    if Grows(p, Sell) {
      GrowthAverage(p, t);
    } else {
      ReductionOutcome(p, t);
      Scale(p.averageCost, 0.0, p.size);
      if t.size < p.size {
        Scale(p.averageCost, p.size - t.size, p.size);
      }
    }
  }

  /** The room under the cap that an order needs. */
  function Reserved(side: Side, size: real, limitPrice: real): real {
    if side == Buy then size * limitPrice else 0.0
  }

  /** One user's longs cost something and stay within the cap, with what an approval has reserved. */
  ghost predicate Bounded(s: System, cap: real, u: Id) {
    && (forall k: Key :: k.userId == u ==> LongsCostSomething(PositionOf(s.account.ledger, k)))
    && Exposure(s.account.ledger, u) <= cap
    && (forall v :: v in s.approved ==> s.approved[v].userId == v)
    && (u in s.approved ==>
          var i := s.approved[u];
          Exposure(s.account.ledger, u) + Reserved(i.side, i.size, i.limitPrice) <= cap)
  }

  lemma FlatCostsNothingLong()
    ensures CostOfLong(FLAT) == 0.0
  {
  }

  lemma ApplyFillMovesExposure(l: Ledger, f: Fill, u: Id)
    requires f.size > 0.0
    ensures var p := PositionOf(l, KeyOf(f));
            Exposure(ApplyFill(l, f), u) ==
            Exposure(l, u) + (if f.userId == u then CostOfLong(Absorb(p, TradeOf(f))) - CostOfLong(p) else 0.0)
  {
    hide Absorb, ApplyFillToBalance, SumMap, CostOfLong;
    var k := KeyOf(f);
    var p, q := PositionOf(l, k), Absorb(PositionOf(l, k), TradeOf(f));
    SumMapUpdate(l.positions, LongCost(u), k, q);
    assert CostOfLong(FLAT) == 0.0 by {
      FlatCostsNothingLong();
    }
  }

  /** One fill of an approved intent stays within what its approval reserved. */
  lemma FillStaysWithinReserve(l: Ledger, i: Intent, f: Fill, best: real)
    requires FillOf(i, f) && Crosses(i.side, i.limitPrice, best) && f.price == QuantizePrice(best)
    requires i.side == Buy ==> 0.0 <= f.price
    requires LongsCostSomething(PositionOf(l, KeyOf(f)))
    ensures LongsCostSomething(Absorb(PositionOf(l, KeyOf(f)), TradeOf(f)))
    ensures || Exposure(ApplyFill(l, f), i.userId) <= Exposure(l, i.userId)
            || Exposure(ApplyFill(l, f), i.userId) <= Exposure(l, i.userId) + Reserved(i.side, i.size, i.limitPrice)
  {
    hide Absorb, ApplyFill, Exposure, LongsCostSomething, CostOfLong, QuantizePrice, Fee;
    var p := PositionOf(l, KeyOf(f));
    ApplyFillMovesExposure(l, f, i.userId);
    if i.side == Buy {
      BuyAddsAtMostItsNotional(p, TradeOf(f));
      if 0.0 < f.price {
        MulBounds(f.size, f.price, i.size, i.limitPrice);
      } else {
        assert f.size * f.price == 0.0;
      }
    } else {
      SellNeverAddsCost(p, TradeOf(f));
    }
  }

  lemma ExposureGateReserves(cap: real, signal: Signal, ctx: RiskContext)
    requires Evaluate(PerUserAggregateExposureCap(cap), signal, ctx).passed
    ensures ctx.userAggregateExposure + Reserved(signal.side, signal.size, signal.limitPrice) <= cap
  {
  }

  lemma ApprovalReserves(gates: seq<Gate>, cap: real, l: Ledger, signal: Signal, quotes: Quotes, intentId: Id)
    requires PerUserAggregateExposureCap(cap) in gates
    requires Verdict(gates, signal, ContextOf(l, signal.userId, quotes), intentId).Approved()
    ensures var i := Verdict(gates, signal, ContextOf(l, signal.userId, quotes), intentId).intent;
            i.userId == signal.userId && Exposure(l, signal.userId) + Reserved(i.side, i.size, i.limitPrice) <= cap
  {
    hide Decisions, Exposure, Evaluate, Reserved;
    var ctx := ContextOf(l, signal.userId, quotes);
    ApprovalPassesEachGate(gates, PerUserAggregateExposureCap(cap), signal, ctx, intentId);
    ExposureGateReserves(cap, signal, ctx);
  }

  lemma NextKeepsBounded(gates: seq<Gate>, s: System, e: Event, cap: real, u: Id)
    requires PerUserAggregateExposureCap(cap) in gates && Bounded(s, cap, u)
    requires e.Settled? && e.userId == u ==> AskNotNegative(e.book)
    ensures Bounded(Next(gates, s, e), cap, u)
  {
    hide Verdict, Execute, ApplyFill, SettledFill, Process, Fee, Exposure, LongsCostSomething, QuantizePrice, Reserved;
    var l := s.account.ledger;
    match e
    case Signalled(signal, quotes, intentId) =>
      var ctx := ContextOf(l, signal.userId, quotes);
      if signal.userId !in s.approved && Verdict(gates, signal, ctx, intentId).Approved() {
        ApprovalReserves(gates, cap, l, signal, quotes, intentId);
      }
    case Settled(v, book, orderId, fillId) =>
      if v in s.approved {
        var i := s.approved[v];
        SettlingAppliesOneFill(s.account, i, book, orderId, fillId);
        var f := SettledFill(s.account, i, book, orderId, fillId);
        if f.Some? {
          var (best, _) := Opposite(i.side, book.value);
          FillNamesItsUser(i, f.value);
          if v == u {
            FillStaysWithinReserve(l, i, f.value, best.value);
          }
          ApplyFillMovesExposure(l, f.value, u);
          forall k: Key | k.userId == u
            ensures LongsCostSomething(PositionOf(ApplyFill(l, f.value), k))
          {
            RowAfterFill(l, f.value, k);
          }
        }
      }
  }

  /** A user's long positions never cost more than the cap, in any gated run that starts within it,
      flips from short to long included: as long as no long that the user starts with has a negative
      average cost and no ask that the user meets rounds to a negative price. */
  lemma {:induction false} GatedRunsStayBounded(gates: seq<Gate>, l: Ledger, es: seq<Event>, cap: real, u: Id)
    requires PerUserAggregateExposureCap(cap) in gates
    requires forall k: Key :: k.userId == u ==> LongsCostSomething(PositionOf(l, k))
    requires Exposure(l, u) <= cap
    requires forall j :: 0 <= j < |es| && es[j].Settled? && es[j].userId == u ==> AskNotNegative(es[j].book)
    ensures Bounded(RunEvents(gates, Start(l), es), cap, u)
    ensures Exposure(RunEvents(gates, Start(l), es).account.ledger, u) <= cap
  {
    hide Exposure, LongsCostSomething, AskNotNegative;
    if es != [] {
      hide Next;
      GatedRunsStayBounded(gates, l, es[..|es| - 1], cap, u);
      NextKeepsBounded(gates, RunEvents(gates, Start(l), es[..|es| - 1]), es[|es| - 1], cap, u);
    }
  }

  /** The gate rejects no purchase without need: unless the position is short, a full fill at the limit
      would take the exposure above the cap. */
  lemma RejectedPurchaseWouldExceed(cap: real, l: Ledger, s: Signal, quotes: Quotes, i: Intent)
    requires s.side == Buy && 0.0 < s.size && IsSizeTick(s.size) && IsPriceTick(s.limitPrice)
    requires PositionOf(l, Key(s.userId, s.marketId, s.tokenId)).size >= 0.0
    requires i == IntentFor(s, i.intentId, i.riskDecisions)
    requires !Evaluate(PerUserAggregateExposureCap(cap), s, ContextOf(l, s.userId, quotes)).passed
    ensures Exposure(Process(Account(l, {}), i, Some(OfferAt(s.limitPrice, s.size)), 0, 0).ledger, s.userId) > cap
  {
    hide SimulateFill, Absorb, ApplyFill, Exposure, CostOfLong;
    WholeFill(Buy, s.size, s.limitPrice, s.limitPrice, OfferAt(s.limitPrice, s.size));
    PriceTickBound(s.limitPrice, s.limitPrice);
    var r := SimulateFill(Buy, s.size, s.limitPrice, OfferAt(s.limitPrice, s.size)).value;
    var f := Fill(0, 0, i.intentId, s.userId, s.marketId, s.tokenId, Buy, s.size, s.limitPrice, r.fee);
    assert Process(Account(l, {}), i, Some(OfferAt(s.limitPrice, s.size)), 0, 0).ledger == ApplyFill(l, f);
    ApplyFillMovesExposure(l, f, s.userId);
    LongPurchaseCost(PositionOf(l, KeyOf(f)), TradeOf(f));
  }

  lemma LongPurchaseCost(p: Position, t: Trade)
    requires t.Accepted() && t.side == Buy && p.size >= 0.0
    ensures CostOfLong(Absorb(p, t)) == CostOfLong(p) + t.size * t.price
  {
    hide Absorb;
    GrowthAverage(p, t);
    if p.size == 0.0 {
      assert Abs(p.size) * p.averageCost == 0.0;
    }
  }

  /** A signal that is approved and then settled against a book. */
  function TradeEvents(signal: Signal, book: BookSnapshot): seq<Event> {
    [Signalled(signal, NoQuotes(), 0), Settled(signal.userId, Some(book), 0, 0)]
  }

  function FillFrom(signal: Signal, r: PaperFillResult): Fill {
    Fill(0, 0, 0, signal.userId, signal.marketId, signal.tokenId, signal.side, r.filledSize, r.fillPrice, r.fee)
  }

  lemma TradeThrough(cap: real, a: Account, signal: Signal, book: BookSnapshot)
    requires signal.signalId !in a.seen
    requires Exposure(a.ledger, signal.userId) + Reserved(signal.side, signal.size, signal.limitPrice) <= cap
    requires SimulateFill(signal.side, signal.size, signal.limitPrice, book).Some?
    ensures RunEvents([PerUserAggregateExposureCap(cap)], System(a, map[]), TradeEvents(signal, book)) ==
            var f := FillFrom(signal, SimulateFill(signal.side, signal.size, signal.limitPrice, book).value);
            System(Account(ApplyFill(a.ledger, f), a.seen + {signal.signalId}), map[])
  {
    hide SimulateFill, ApplyFill, Exposure, Decisions;
    var gates := [PerUserAggregateExposureCap(cap)];
    var ctx := ContextOf(a.ledger, signal.userId, NoQuotes());
    TwoEvents(gates, System(a, map[]), Signalled(signal, NoQuotes(), 0), Settled(signal.userId, Some(book), 0, 0));
    ApprovedIffAllPass(gates, signal, ctx, 0);
    var intent := Verdict(gates, signal, ctx, 0).intent;
    assert map[signal.userId := intent] - {signal.userId} == map[];
  }

  function Asking(price: real, depth: real): BookSnapshot {
    BookSnapshot(None, Some(price), 0.0, depth)
  }

  function Bidding(price: real, depth: real): BookSnapshot {
    BookSnapshot(Some(price), None, depth, 0.0)
  }

  // ----- A negative ask breaks the cap -----------------------------------------------------------

  /** The room that a purchase at a negative price makes can be spent; selling that purchase then
      leaves the rest above the cap. */
  function FirstLot(u: Id, market: string): Signal {
    Signal(1, u, market, "token", Buy, 1.0, 0.0)
  }

  function SecondLot(u: Id, market: string, size: real): Signal {
    Signal(2, u, market, "token", Buy, size, 0.5)
  }

  function FirstLotSold(u: Id, market: string): Signal {
    Signal(3, u, market, "token", Sell, 1.0, 0.5)
  }

  function NegativeAskRun(u: Id, market: string, other: string, ask: real): seq<Event> {
    TradeEvents(FirstLot(u, market), Asking(ask, 1.0))
    + TradeEvents(SecondLot(u, other, -2.0 * QuantizePrice(ask)), Asking(0.5, -2.0 * QuantizePrice(ask)))
    + TradeEvents(FirstLotSold(u, market), Bidding(0.5, 1.0))
  }

  lemma OpeningCost(t: Trade)
    requires t.Accepted() && t.side == Buy
    ensures var p := Absorb(FLAT, t);
            p.size == t.size && CostOfLong(FLAT) == 0.0 && CostOfLong(p) == t.size * t.price
  {
    hide Absorb;
    GrowthAverage(FLAT, t);
    assert Abs(FLAT.size) * FLAT.averageCost == 0.0;
  }

  lemma ClosingCost(p: Position, t: Trade)
    requires p.size > 0.0 && t.Accepted() && t.side == Sell && t.size == p.size
    ensures CostOfLong(Absorb(p, t)) == 0.0
  {
    hide Absorb;
    ReductionOutcome(p, t);
  }

  lemma DoublePriceIsSizeTick(price: real)
    requires IsPriceTick(price)
    ensures IsSizeTick(-2.0 * price)
  {
    var n := (price * 1000.0).Floor;
    FloorOfInt((-2.0 * price) * 1000000.0, -2000 * n);
  }

  lemma FloorOfInt(x: real, n: int)
    requires x == n as real
    ensures x.Floor as real == x
  {
  }

  lemma NegativeAskBreaksTheCap(l: Ledger, u: Id, market: string, other: string, ask: real)
    requires QuantizePrice(ask) < 0.0 && market != other
    requires PositionOf(l, Key(u, market, "token")) == FLAT == PositionOf(l, Key(u, other, "token"))
    ensures var gates, es := [PerUserAggregateExposureCap(Exposure(l, u))], NegativeAskRun(u, market, other, ask);
            Exposure(RunEvents(gates, Start(l), es).account.ledger, u) > Exposure(l, u)
  {
    hide SimulateFill, Absorb, ApplyFill, Exposure, RunEvents, CostOfLong;
    var cap, price := Exposure(l, u), QuantizePrice(ask);
    var gates := [PerUserAggregateExposureCap(cap)];
    var a0 := Account(l, {});

    WholeFill(Buy, 1.0, 0.0, ask, Asking(ask, 1.0));
    TradeThrough(cap, a0, FirstLot(u, market), Asking(ask, 1.0));
    var f1 := FillFrom(FirstLot(u, market), SimulateFill(Buy, 1.0, 0.0, Asking(ask, 1.0)).value);
    var a1 := Account(ApplyFill(a0.ledger, f1), a0.seen + {1});
    OpeningCost(TradeOf(f1));
    ApplyFillMovesExposure(a0.ledger, f1, u);
    assert Exposure(a1.ledger, u) == cap + price;

    var size := -2.0 * price;
    DoublePriceIsSizeTick(price);
    assert IsPriceTick(0.5);
    PriceTickBound(0.5, 0.5);
    WholeFill(Buy, size, 0.5, 0.5, Asking(0.5, size));
    TradeThrough(cap, a1, SecondLot(u, other, size), Asking(0.5, size));
    var f2 := FillFrom(SecondLot(u, other, size), SimulateFill(Buy, size, 0.5, Asking(0.5, size)).value);
    var a2 := Account(ApplyFill(a1.ledger, f2), a1.seen + {2});
    RowAfterFill(a0.ledger, f1, KeyOf(f2));
    OpeningCost(TradeOf(f2));
    ApplyFillMovesExposure(a1.ledger, f2, u);
    assert Exposure(a2.ledger, u) == cap;

    WholeFill(Sell, 1.0, 0.5, 0.5, Bidding(0.5, 1.0));
    TradeThrough(cap, a2, FirstLotSold(u, market), Bidding(0.5, 1.0));
    var f3 := FillFrom(FirstLotSold(u, market), SimulateFill(Sell, 1.0, 0.5, Bidding(0.5, 1.0)).value);
    RowAfterFill(a0.ledger, f1, KeyOf(f3));
    RowAfterFill(a1.ledger, f2, KeyOf(f3));
    ClosingCost(PositionOf(a2.ledger, KeyOf(f3)), TradeOf(f3));
    ApplyFillMovesExposure(a2.ledger, f3, u);

    ThreeTrades(gates, System(a0, map[]),
                TradeEvents(FirstLot(u, market), Asking(ask, 1.0)),
                TradeEvents(SecondLot(u, other, size), Asking(0.5, size)),
                TradeEvents(FirstLotSold(u, market), Bidding(0.5, 1.0)));
  }

  lemma ThreeTrades(gates: seq<Gate>, s: System, a: seq<Event>, b: seq<Event>, c: seq<Event>)
    ensures RunEvents(gates, s, a + b + c) == RunEvents(gates, RunEvents(gates, RunEvents(gates, s, a), b), c)
  {
    hide RunEvents;
    RunConcat(gates, s, a + b, c);
    RunConcat(gates, s, a, b);
  }

  /** A market that no row of the ledger names. */
  lemma {:induction false} UnusedMarket(rows: map<Key, Position>) returns (market: string)
    ensures market != "" && forall k :: k in rows ==> |k.marketId| < |market|
    decreases |rows|
  {
    if rows == map[] {
      market := "m";
    } else {
      var k := Pick(rows);
      var shorter := UnusedMarket(rows - {k});
      market := shorter + k.marketId;
      forall j | j in rows ensures |j.marketId| < |market| {
        assert j != k ==> j in rows - {k};
      }
    }
  }

  // ----- So does a long of negative cost ---------------------------------------------------------

  /** Selling a micro-share of a long. */
  function Trim(k: Key): Signal {
    Signal(1, k.userId, k.marketId, k.tokenId, Sell, 0.000001, 0.0)
  }

  lemma TrimmingAddsCost(p: Position, t: Trade)
    requires p.size > 0.0 && p.averageCost < 0.0 && t.Accepted() && t.side == Sell
    ensures CostOfLong(Absorb(p, t)) > CostOfLong(p)
  {
    hide Absorb;
    ReductionOutcome(p, t);
    if t.size < p.size {
      assert (p.size - t.size) * p.averageCost - p.size * p.averageCost == -t.size * p.averageCost;
      PositiveProduct(t.size, -p.averageCost);
    } else {
      PositiveProduct(p.size, -p.averageCost);
    }
  }

  lemma PositiveProduct(x: real, y: real)
    requires 0.0 < x && 0.0 < y
    ensures 0.0 < x * y
  {
  }

  lemma NegativeLongBreaksTheCap(l: Ledger, k: Key)
    requires !LongsCostSomething(PositionOf(l, k))
    ensures var gates, es := [PerUserAggregateExposureCap(Exposure(l, k.userId))],
                             TradeEvents(Trim(k), Bidding(0.0, 0.000001));
            Exposure(RunEvents(gates, Start(l), es).account.ledger, k.userId) > Exposure(l, k.userId)
  {
    hide SimulateFill, Absorb, ApplyFill, Exposure, RunEvents, CostOfLong;
    assert IsSizeTick(0.000001);
    WholeFill(Sell, 0.000001, 0.0, 0.0, Bidding(0.0, 0.000001));
    TradeThrough(Exposure(l, k.userId), Account(l, {}), Trim(k), Bidding(0.0, 0.000001));
    var f := FillFrom(Trim(k), SimulateFill(Sell, 0.000001, 0.0, Bidding(0.0, 0.000001)).value);
    TrimmingAddsCost(PositionOf(l, k), TradeOf(f));
    ApplyFillMovesExposure(l, f, k.userId);
  }

  // ----- The exact condition ---------------------------------------------------------------------

  /** Every ask that the user's orders meet is at least some price. */
  ghost predicate AsksAtLeast(es: seq<Event>, u: Id, ask: real) {
    forall j :: 0 <= j < |es| && es[j].Settled? && es[j].userId == u
                && es[j].book.Some? && es[j].book.value.bestAsk.Some? ==>
      ask <= es[j].book.value.bestAsk.value
  }

  /** No run from this ledger over such asks takes the user's exposure above a cap that it starts within. */
  ghost predicate CapHolds(l: Ledger, u: Id, ask: real) {
    forall es: seq<Event>, cap: real ::
      Exposure(l, u) <= cap && AsksAtLeast(es, u, ask) ==>
        Exposure(RunEvents([PerUserAggregateExposureCap(cap)], Start(l), es).account.ledger, u) <= cap
  }

  lemma HigherAskIsNoWorse(ask: real, other: real)
    requires ask <= other && 0.0 <= QuantizePrice(ask)
    ensures 0.0 <= QuantizePrice(other)
  {
    var q := QuantizePrice(other);
    assert -1.0 < q * 1000.0;
  }

  /** From any ledger, for any user and any floor under the asks: the exposure cap holds over all runs
      if and only if no long of the user has a negative average cost at the start and the filler does
      not round the floor to a negative price. */
  lemma CapHoldsIffCostsAreNotNegative(l: Ledger, u: Id, ask: real)
    ensures CapHolds(l, u, ask) <==>
            (forall k: Key :: k.userId == u ==> LongsCostSomething(PositionOf(l, k))) && 0.0 <= QuantizePrice(ask)
  {
    hide QuantizePrice, RunEvents, Exposure, LongsCostSomething;
    if k: Key :| k.userId == u && !LongsCostSomething(PositionOf(l, k)) {
      NegativeLongBreaksTheCap(l, k);
      assert AsksAtLeast(TradeEvents(Trim(k), Bidding(0.0, 0.000001)), u, ask);
    } else if QuantizePrice(ask) < 0.0 {
      var market := UnusedMarket(l.positions);
      var other := market + "m";
      NegativeAskBreaksTheCap(l, u, market, other, ask);
      SignOfQuantized(ask);
      assert AsksAtLeast(NegativeAskRun(u, market, other, ask), u, ask);
    } else {
      forall es: seq<Event>, cap: real | Exposure(l, u) <= cap && AsksAtLeast(es, u, ask)
        ensures Exposure(RunEvents([PerUserAggregateExposureCap(cap)], Start(l), es).account.ledger, u) <= cap
      {
        forall j | 0 <= j < |es| && es[j].Settled? && es[j].userId == u
          ensures AskNotNegative(es[j].book)
        {
          if es[j].book.Some? && es[j].book.value.bestAsk.Some? {
            HigherAskIsNoWorse(ask, es[j].book.value.bestAsk.value);
          }
        }
        GatedRunsStayBounded([PerUserAggregateExposureCap(cap)], l, es, cap, u);
      }
    }
  }

  lemma SignOfQuantized(ask: real)
    requires QuantizePrice(ask) < 0.0
    ensures ask < 0.0
  {
  }
}
