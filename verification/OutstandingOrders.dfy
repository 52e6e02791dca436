/** Several approved orders outstanding at once: exactly when no books can make them overdraw. */
module OutstandingOrders {
  import opened Domain
  import opened DecimalHelpers
  import opened Sums
  import opened PositionMath
  import opened PaperFiller
  import opened RiskEngine
  import opened Ledgers
  import opened Execution
  import opened IntentStream
  import opened Pipeline
  import opened Solvency

  /** The most that settling an intent can cost its user: a purchase filled whole at its limit, with
      the filler's roundings and fee; a sale costs nothing. */
  function Worst(): Intent -> real {
    (i: Intent) =>
      var size, price := QuantizeSize(i.size), QuantizePrice(i.limitPrice);
      if i.side == Buy && 0.0 < size && 0.0 < price then size * price + Fee(size, price, PAPER_FEE_PCT) else 0.0
  }

  /** The book that makes an intent cost that much. */
  function WorstBook(i: Intent): Option<BookSnapshot> {
    if 0.0 < Worst()(i) then Some(OfferAt(i.limitPrice, i.size)) else None
  }

  /** Settle the orders one after the other, each against its own book. */
  function SettleAll(a: Account, intents: seq<Intent>, books: seq<Option<BookSnapshot>>): Account
    requires |books| == |intents|
  {
    if intents == [] then a
    else
      var n := |intents| - 1;
      Process(SettleAll(a, intents[..n], books[..n]), intents[n], books[n], n, n)
  }

  function WorstBooks(intents: seq<Intent>): (books: seq<Option<BookSnapshot>>)
    ensures |books| == |intents|
  {
    if intents == [] then []
    else WorstBooks(intents[..|intents| - 1]) + [WorstBook(intents[|intents| - 1])]
  }

  /** The intents of one user whose signals are new when their turn comes. */
  ghost function Fresh(seen: set<Id>, intents: seq<Intent>, u: Id): seq<Intent> {
    if intents == [] then []
    else
      var init, last := intents[..|intents| - 1], intents[|intents| - 1];
      Fresh(seen, init, u) +
      (if last.userId == u && last.signalId !in seen && !Occurs(init, last.signalId) then [last] else [])
  }

  /** No books overdraw the user. */
  ghost predicate NeverOverdraws(a: Account, intents: seq<Intent>, u: Id) {
    forall books: seq<Option<BookSnapshot>> | |books| == |intents| ::
      0.0 <= BalanceOf(SettleAll(a, intents, books).ledger, u)
  }

  lemma QuantizeSizeGrows(x: real, y: real)
    requires 0.0 <= x <= y
    ensures QuantizeSize(x) <= QuantizeSize(y)
  {
    SizeTickBound(y, QuantizeSize(x));
  }

  lemma WorstIsNotNegative(i: Intent)
    ensures 0.0 <= Worst()(i)
  {
    hide QuantizeSize, QuantizePrice, Fee;
    var size, price := QuantizeSize(i.size), QuantizePrice(i.limitPrice);
    if 0.0 < size && 0.0 < price {
      Scale(size, 0.0, price);
      FeeBound(size, price);
    }
  }

  /** For a purchase, larger fills at higher prices cost more, fee included. */
  lemma CostGrows(size: real, price: real, size': real, price': real)
    requires 0.0 <= size <= size' && 0.0 <= price <= price'
    ensures size * price + Fee(size, price, PAPER_FEE_PCT) <= size' * price' + Fee(size', price', PAPER_FEE_PCT)
  {
    hide Fee;
    MulBounds(size, price, size', price');
    FeeGrows(size, price, size', price');
  }

  lemma FeeGrows(size: real, price: real, size': real, price': real)
    requires 0.0 <= size * price <= size' * price'
    ensures Fee(size, price, PAPER_FEE_PCT) <= Fee(size', price', PAPER_FEE_PCT)
  {
    hide QuantizeSize;
    TwoPercentGrows(size * price, size' * price');
  }

  lemma TwoPercentGrows(notional: real, notional': real)
    requires 0.0 <= notional <= notional'
    ensures QuantizeSize(notional * PAPER_FEE_PCT) <= QuantizeSize(notional' * PAPER_FEE_PCT)
  {
    hide QuantizeSize;
    QuantizeSizeGrows(notional * PAPER_FEE_PCT, notional' * PAPER_FEE_PCT);
  }

  /** A sale, or a purchase at no positive price, costs nothing. */
  lemma FillCostsNothing(f: Fill)
    requires 0.0 < f.size && f.fee == Fee(f.size, f.price, PAPER_FEE_PCT)
    requires if f.side == Buy then f.price <= 0.0 else 0.0 <= f.price
    ensures -CashDelta()(f) <= 0.0
  {
    hide Fee;
    FeeBound(f.size, f.price);
    if f.side == Sell {
      Scale(f.size, 0.0, f.price);
    }
  }

  lemma PurchaseCosts(f: Fill)
    requires 0.0 < f.size && f.side == Buy
    ensures -CashDelta()(f) == f.size * f.price + f.fee
  {
  }

  lemma FillCostsAtMostWorst(i: Intent, f: Fill, best: real)
    requires FillOf(i, f) && Crosses(i.side, i.limitPrice, best) && f.price == QuantizePrice(best)
    requires IsSizeTick(f.size) && (i.side == Sell ==> 0.0 <= i.limitPrice)
    ensures -CashDelta()(f) <= Worst()(i)
  {
    hide QuantizeSize, QuantizePrice, Fee, Worst, CashDelta, IsSizeTick, IsPriceTick;
    if i.side == Buy && 0.0 < f.price {
      SizeTickBound(i.size, f.size);
      PriceTickBound(i.limitPrice, f.price);
      CostGrows(f.size, f.price, QuantizeSize(i.size), QuantizePrice(i.limitPrice));
      WorstOfPurchase(i);
      PurchaseCosts(f);
    } else {
      WorstIsNotNegative(i);
      FillCostsNothing(f);
    }
  }

  lemma WorstOfPurchase(i: Intent)
    requires i.side == Buy && 0.0 < QuantizeSize(i.size) && 0.0 < QuantizePrice(i.limitPrice)
    ensures var size, price := QuantizeSize(i.size), QuantizePrice(i.limitPrice);
            Worst()(i) == size * price + Fee(size, price, PAPER_FEE_PCT)
  {
    hide QuantizeSize, QuantizePrice, Fee;
  }

  lemma SettledFillIsTick(a: Account, i: Intent, book: Option<BookSnapshot>, orderId: Id, fillId: Id)
    ensures var f := SettledFill(a, i, book, orderId, fillId); f.Some? ==> IsSizeTick(f.value.size)
  {
    hide SimulateFill, IsSizeTick;
  }

  /** One settlement costs no more than the worst, and nothing unless the signal is the user's and new. */
  lemma SettlingCostsAtMostWorst(a: Account, i: Intent, book: Option<BookSnapshot>, orderId: Id, fillId: Id, u: Id)
    requires i.userId == u && i.side == Sell ==> 0.0 <= i.limitPrice
    ensures BalanceOf(Process(a, i, book, orderId, fillId).ledger, u) >=
            BalanceOf(a.ledger, u) - (if i.userId == u && i.signalId !in a.seen then Worst()(i) else 0.0)
  {
    hide Process, ApplyFill, SettledFill, Worst, CashDelta, QuantizePrice, IsSizeTick;
    WorstIsNotNegative(i);
    SettlingAppliesOneFill(a, i, book, orderId, fillId);
    var f := SettledFill(a, i, book, orderId, fillId);
    if f.Some? {
      var (best, _) := Opposite(i.side, book.value);
      SettledFillIsTick(a, i, book, orderId, fillId);
      FillNamesItsUser(i, f.value);
      if i.userId == u {
        FillCostsAtMostWorst(i, f.value, best.value);
      }
      ApplyFillMovesCash(a.ledger, f.value, u);
    }
  }

  /** The worst book makes it cost exactly that. */
  lemma WorstBookCostsWorst(a: Account, i: Intent, orderId: Id, fillId: Id, u: Id)
    ensures BalanceOf(Process(a, i, WorstBook(i), orderId, fillId).ledger, u) ==
            BalanceOf(a.ledger, u) - (if i.userId == u && i.signalId !in a.seen then Worst()(i) else 0.0)
  {
    WorstIsNotNegative(i);
    if 0.0 < Worst()(i) && i.signalId !in a.seen {
      hide QuantizeSize, QuantizePrice, Fee, ApplyFill;
      var size, price := QuantizeSize(i.size), QuantizePrice(i.limitPrice);
      var f := Fill(fillId, orderId, i.intentId, i.userId, i.marketId, i.tokenId, Buy, size, price,
                    Fee(size, price, PAPER_FEE_PCT));
      assert Execute(i, WorstBook(i), orderId, fillId).fill == Some(f);
      ApplyFillMovesCash(a.ledger, f, u);
    } else {
      hide Worst, ApplyFill;
    }
  }

  lemma {:induction false} SeenAfterSettling(
    a: Account, intents: seq<Intent>, books: seq<Option<BookSnapshot>>, id: Id)
    requires |books| == |intents|
    ensures id in SettleAll(a, intents, books).seen <==> id in a.seen || Occurs(intents, id)
  {
    if intents != [] {
      hide Execute, ApplyFill;
      var n := |intents| - 1;
      SeenAfterSettling(a, intents[..n], books[..n], id);
      OccursAppend(intents[..n], intents[n], id);
      assert intents[..n] + [intents[n]] == intents;
    }
  }

  lemma OccursAppend(init: seq<Intent>, last: Intent, id: Id)
    ensures Occurs(init + [last], id) <==> Occurs(init, id) || last.signalId == id
  {
    if Occurs(init, id) {
      var i :| 0 <= i < |init| && init[i].signalId == id;
      assert (init + [last])[i].signalId == id;
    }
    assert (init + [last])[|init|] == last;
    if Occurs(init + [last], id) && last.signalId != id {
      var i :| 0 <= i < |init + [last]| && (init + [last])[i].signalId == id;
      assert init[i].signalId == id;
    }
  }

  /** Whatever the books, the balance falls by at most the sum of the worst costs ... */
  lemma {:induction false} SettlingAllCostsAtMostWorst(
    a: Account, intents: seq<Intent>, books: seq<Option<BookSnapshot>>, u: Id)
    requires |books| == |intents|
    requires forall i :: i in intents && i.userId == u && i.side == Sell ==> 0.0 <= i.limitPrice
    ensures BalanceOf(SettleAll(a, intents, books).ledger, u) >=
            BalanceOf(a.ledger, u) - Sum(Fresh(a.seen, intents, u), Worst())
  {
    if intents != [] {
      hide Process, Worst, Sum, Occurs;
      var n := |intents| - 1;
      var b, fresh' := SettleAll(a, intents[..n], books[..n]), Fresh(a.seen, intents[..n], u);
      SettlingAllCostsAtMostWorst(a, intents[..n], books[..n], u);
      SettlingCostsAtMostWorst(b, intents[n], books[n], n, n, u);
      SeenAfterSettling(a, intents[..n], books[..n], intents[n].signalId);
      SumAppend(fresh', intents[n], Worst());
      assert fresh' + [] == fresh';
    } else {
      assert Sum(Fresh(a.seen, intents, u), Worst()) == 0.0;
    }
  }

  /** ... and the worst books make it fall by exactly that. */
  lemma {:induction false} WorstBooksCostWorst(a: Account, intents: seq<Intent>, u: Id)
    ensures BalanceOf(SettleAll(a, intents, WorstBooks(intents)).ledger, u) ==
            BalanceOf(a.ledger, u) - Sum(Fresh(a.seen, intents, u), Worst())
  {
    if intents != [] {
      hide Process, Worst, WorstBook, Sum, Occurs;
      var n := |intents| - 1;
      var books := WorstBooks(intents);
      assert books[..n] == WorstBooks(intents[..n]) && books[n] == WorstBook(intents[n]);
      var b, fresh' := SettleAll(a, intents[..n], books[..n]), Fresh(a.seen, intents[..n], u);
      WorstBooksCostWorst(a, intents[..n], u);
      WorstBookCostsWorst(b, intents[n], n, n, u);
      SeenAfterSettling(a, intents[..n], books[..n], intents[n].signalId);
      SumAppend(fresh', intents[n], Worst());
      assert fresh' + [] == fresh';
    } else {
      assert Sum(Fresh(a.seen, intents, u), Worst()) == 0.0;
    }
  }

  /** Orders may be outstanding together exactly as long as the balance covers the sum of their worst
      costs: then, and only then, no books overdraw the user. The intents may belong to any users and
      repeat signals; only the user's own new signals count. */
  lemma SafeTogetherIffCovered(a: Account, intents: seq<Intent>, u: Id)
    requires forall i :: i in intents && i.userId == u && i.side == Sell ==> 0.0 <= i.limitPrice
    ensures Sum(Fresh(a.seen, intents, u), Worst()) <= BalanceOf(a.ledger, u) <==> NeverOverdraws(a, intents, u)
  {
    hide SettleAll, Sum, Fresh, Worst;
    if Sum(Fresh(a.seen, intents, u), Worst()) <= BalanceOf(a.ledger, u) {
      forall books: seq<Option<BookSnapshot>> | |books| == |intents|
        ensures 0.0 <= BalanceOf(SettleAll(a, intents, books).ledger, u)
      {
        SettlingAllCostsAtMostWorst(a, intents, books, u);
      }
    } else {
      WorstBooksCostWorst(a, intents, u);
    }
  }

  /** The cost that the USDC gate reckons with. */
  function GateCost(feePct: real): Intent -> real {
    (i: Intent) => if i.side == Buy then i.size * i.limitPrice * (1.0 + feePct) else 0.0
  }

  lemma WorstIsWithinGateCost(i: Intent, feePct: real)
    requires 0.0 <= i.size && 0.0 <= i.limitPrice && feePct >= PAPER_FEE_PCT
    ensures Worst()(i) <= GateCost(feePct)(i)
  {
    hide QuantizeSize, QuantizePrice, Fee;
    var size, price := QuantizeSize(i.size), QuantizePrice(i.limitPrice);
    MulBounds(size, price, i.size, i.limitPrice);
    MulBounds(size * price, 1.02, i.size * i.limitPrice, 1.0 + feePct);
    if 0.0 < size {
      FeeBound(size, price);
    }
  }

  lemma {:induction false} FreshIsWithin(seen: set<Id>, intents: seq<Intent>, u: Id)
    ensures forall i :: i in Fresh(seen, intents, u) ==> i in intents && i.userId == u
  {
    if intents != [] {
      FreshIsWithin(seen, intents[..|intents| - 1], u);
    }
  }

  lemma {:induction false} SumGrows<T>(xs: seq<T>, f: T -> real, g: T -> real)
    requires forall x :: x in xs ==> f(x) <= g(x)
    ensures Sum(xs, f) <= Sum(xs, g)
  {
    if xs != [] {
      SumGrows(xs[..|xs| - 1], f, g);
    }
  }

  /** So a gate that also reckoned with the orders already approved would be safe: what the USDC gate
      asks of one order, asked of the sum, is enough for all of them together. */
  lemma GateCostOfAllIsEnough(a: Account, intents: seq<Intent>, feePct: real, u: Id)
    requires feePct >= PAPER_FEE_PCT
    requires forall i :: i in intents && i.userId == u ==> 0.0 <= i.size && 0.0 <= i.limitPrice
    requires Sum(Fresh(a.seen, intents, u), GateCost(feePct)) <= BalanceOf(a.ledger, u)
    ensures NeverOverdraws(a, intents, u)
  {
    hide Sum, Fresh, Worst, GateCost, NeverOverdraws;
    FreshIsWithin(a.seen, intents, u);
    forall i | i in Fresh(a.seen, intents, u)
      ensures Worst()(i) <= GateCost(feePct)(i)
    {
      WorstIsWithinGateCost(i, feePct);
    }
    SumGrows(Fresh(a.seen, intents, u), Worst(), GateCost(feePct));
    SafeTogetherIffCovered(a, intents, u);
  }

  /** Distinct new signals of one user all count. */
  lemma {:induction false} AllFresh(seen: set<Id>, intents: seq<Intent>, u: Id)
    requires forall i :: i in intents ==> i.userId == u && i.signalId !in seen
    requires forall j, k :: 0 <= j < k < |intents| ==> intents[j].signalId != intents[k].signalId
    ensures Fresh(seen, intents, u) == intents
  {
    if intents != [] {
      var n := |intents| - 1;
      AllFresh(seen, intents[..n], u);
      assert !Occurs(intents[..n], intents[n].signalId);
    }
  }

  /** For sizes and limits on their ticks, the worst cost is the notional at the limit plus its fee. */
  lemma WorstOfTicks(i: Intent)
    requires 0.0 <= i.size && IsSizeTick(i.size) && 0.0 <= i.limitPrice && IsPriceTick(i.limitPrice)
    ensures Worst()(i) ==
            if i.side == Buy then i.size * i.limitPrice + Fee(i.size, i.limitPrice, PAPER_FEE_PCT) else 0.0
  {
    hide QuantizeSize, QuantizePrice, IsSizeTick, IsPriceTick;
    SizeTickBound(i.size, i.size);
    PriceTickBound(i.limitPrice, i.limitPrice);
    if i.size == 0.0 || i.limitPrice == 0.0 {
      assert i.size * i.limitPrice == 0.0;
      assert 0.0 * PAPER_FEE_PCT == 0.0;
    }
  }

  /** Two approvals of one user against the same balance: each is covered alone, both together are not. */
  lemma TwoApprovalsAtOnceOverdraw()
    ensures var l := Ledger(map[], map[], 1.02);
            var gates, ctx := [UsdcSufficient(PAPER_FEE_PCT), PriceBounds], ContextOf(l, 0, NoQuotes());
            var first, second := Verdict(gates, TwoShares(0), ctx, 0), Verdict(gates, TwoShares(1), ctx, 1);
            && first.Approved() && second.Approved()
            && NeverOverdraws(Account(l, {}), [first.intent], 0)
            && NeverOverdraws(Account(l, {}), [second.intent], 0)
            && !NeverOverdraws(Account(l, {}), [first.intent, second.intent], 0)
  {
    hide SettleAll, Decisions, Exposure, Worst, Fresh;
    var l := Ledger(map[], map[], 1.02);
    var gates, ctx := [UsdcSufficient(PAPER_FEE_PCT), PriceBounds], ContextOf(l, 0, NoQuotes());
    TwoSharesApproved(PAPER_FEE_PCT, ctx, 0, 0);
    TwoSharesApproved(PAPER_FEE_PCT, ctx, 1, 1);
    var first, second := Verdict(gates, TwoShares(0), ctx, 0).intent, Verdict(gates, TwoShares(1), ctx, 1).intent;
    WorstOfTwoShares(first);
    WorstOfTwoShares(second);
    AllFresh({}, [first], 0);
    AllFresh({}, [second], 0);
    AllFresh({}, [first, second], 0);
    SumSingle(first, Worst());
    SumSingle(second, Worst());
    SumAppend([first], second, Worst());
    assert [first] + [second] == [first, second];
    SafeTogetherIffCovered(Account(l, {}), [first], 0);
    SafeTogetherIffCovered(Account(l, {}), [second], 0);
    SafeTogetherIffCovered(Account(l, {}), [first, second], 0);
  }

  lemma WorstOfTwoShares(i: Intent)
    requires i.side == Buy && i.size == 2.0 && i.limitPrice == 0.5
    ensures Worst()(i) == 1.02
  {
    hide QuantizeSize, QuantizePrice;
    assert IsSizeTick(2.0) && IsPriceTick(0.5) && IsSizeTick(0.02);
    WorstOfTicks(i);
    SizeTickBound(0.02, 0.02);
  }
}
