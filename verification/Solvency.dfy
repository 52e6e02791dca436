/** No gated run overdraws a user's USDC balance. */
module Solvency {
  import opened Domain
  import opened DecimalHelpers
  import opened PositionMath
  import opened PaperFiller
  import opened RiskEngine
  import opened Ledgers
  import opened Execution
  import opened IntentStream
  import opened Pipeline

  /** What approval has established about an intent, as long as its user's balance stays put. */
  predicate Covered(i: Intent, balance: real, feePct: real) {
    && 0.01 <= i.limitPrice <= 0.99
    && (i.side == Buy ==> i.size * i.limitPrice * (1.0 + feePct) <= balance)
  }

  lemma FeeBound(filled: real, price: real)
    requires 0.0 < filled
    ensures 0.0 <= price ==> 0.0 <= Fee(filled, price, PAPER_FEE_PCT) <= filled * price * 0.02
    ensures price <= 0.0 ==> Fee(filled, price, PAPER_FEE_PCT) <= 0.0 && filled * price <= 0.0
  {
    if 0.0 <= price {
      Scale(filled, 0.0, price);
    } else {
      Scale(filled, price, 0.0);
    }
  }

  lemma CoveredFillKeepsCash(i: Intent, f: Fill, best: real, balance: real, feePct: real)
    requires Covered(i, balance, feePct) && feePct >= PAPER_FEE_PCT && 0.0 <= balance
    requires FillOf(i, f) && Crosses(i.side, i.limitPrice, best) && f.price == QuantizePrice(best)
    ensures 0.0 <= balance + CashDelta()(f)
  {
    hide Fee, QuantizePrice;
    FeeBound(f.size, f.price);
    var notional := f.size * f.price;
    if i.side == Sell || f.price <= 0.0 {
      assert i.side == Sell ==> 0.0 <= f.price;
    } else {
      MulBounds(f.size, f.price, i.size, i.limitPrice);
      MulBounds(notional, 1.02, i.size * i.limitPrice, 1.0 + feePct);
    }
  }

  ghost predicate Solvent(s: System, feePct: real) {
    && (forall u :: 0.0 <= BalanceOf(s.account.ledger, u))
    && (forall u :: u in s.approved ==> s.approved[u].userId == u)
    && (forall u :: u in s.approved ==> Covered(s.approved[u], BalanceOf(s.account.ledger, u), feePct))
  }

  lemma ApprovalCovers(gates: seq<Gate>, feePct: real, signal: Signal, ctx: RiskContext, intentId: Id)
    requires UsdcSufficient(feePct) in gates && PriceBounds in gates
    requires Verdict(gates, signal, ctx, intentId).Approved()
    ensures Covered(Verdict(gates, signal, ctx, intentId).intent, ctx.usdcBalance, feePct)
  {
    hide Decisions;
    ApprovalPassesEachGate(gates, UsdcSufficient(feePct), signal, ctx, intentId);
    ApprovalPassesEachGate(gates, PriceBounds, signal, ctx, intentId);
  }

  lemma NextKeepsSolvent(gates: seq<Gate>, s: System, e: Event, feePct: real)
    requires UsdcSufficient(feePct) in gates && PriceBounds in gates && feePct >= PAPER_FEE_PCT
    requires Solvent(s, feePct)
    ensures Solvent(Next(gates, s, e), feePct)
  {
    hide Verdict, Covered, Execute, ApplyFill, SettledFill, FillOf, Process, CashDelta;
    match e
    case Signalled(signal, quotes, intentId) =>
      var ctx := ContextOf(s.account.ledger, signal.userId, quotes);
      if signal.userId !in s.approved && Verdict(gates, signal, ctx, intentId).Approved() {
        ApprovalCovers(gates, feePct, signal, ctx, intentId);
        IntentNamesItsUser(gates, signal, ctx, intentId);
      }
    case Settled(u, book, orderId, fillId) =>
      if u in s.approved {
        var i := s.approved[u];
        SettlingAppliesOneFill(s.account, i, book, orderId, fillId);
        var f := SettledFill(s.account, i, book, orderId, fillId);
        if f.Some? {
          var (best, _) := Opposite(i.side, book.value);
          FillNamesItsUser(i, f.value);
          CoveredFillKeepsCash(i, f.value, best.value, BalanceOf(s.account.ledger, u), feePct);
          forall v: Id
            ensures BalanceOf(ApplyFill(s.account.ledger, f.value), v) ==
                    BalanceOf(s.account.ledger, v) + (if v == u then CashDelta()(f.value) else 0.0)
          {
            ApplyFillMovesCash(s.account.ledger, f.value, v);
          }
        }
      }
  }

  /** Nobody's balance is ever negative: with the USDC gate at the filler's fee rate or above and the
      price-bounds gate among the gates, for all users, sides, quotes, books and partial fills. */
  lemma {:induction false} GatedRunsStaySolvent(gates: seq<Gate>, l: Ledger, es: seq<Event>, feePct: real, u: Id)
    requires UsdcSufficient(feePct) in gates && PriceBounds in gates && feePct >= PAPER_FEE_PCT
    requires forall v :: 0.0 <= BalanceOf(l, v)
    ensures Solvent(RunEvents(gates, Start(l), es), feePct)
    ensures 0.0 <= BalanceOf(RunEvents(gates, Start(l), es).account.ledger, u)
  {
    if es != [] {
      hide Next;
      GatedRunsStaySolvent(gates, l, es[..|es| - 1], feePct, u);
      NextKeepsSolvent(gates, RunEvents(gates, Start(l), es[..|es| - 1]), es[|es| - 1], feePct);
    }
  }

  // ----- The fee rate is needed --------------------------------------------------------------------

  ghost predicate NoOverdraft(l: Ledger) {
    forall v :: 0.0 <= BalanceOf(l, v)
  }

  function TwoShares(signalId: Id): Signal {
    Signal(signalId, 0, "market", "token", Buy, 2.0, 0.5)
  }

  function EnoughForTwoShares(): BookSnapshot {
    BookSnapshot(None, Some(0.5), 0.0, 2.0)
  }

  /** Two shares at a half cost one dollar and two cents. */
  lemma TwoSharesFill()
    ensures SimulateFill(Buy, 2.0, 0.5, EnoughForTwoShares()) == Some(PaperFillResult(2.0, 0.5, 0.02))
  {
    assert IsSizeTick(2.0) && IsPriceTick(0.5) && IsSizeTick(0.02);
    SizeTickBound(2.0, 2.0);
    PriceTickBound(0.5, 0.5);
    SizeTickBound(0.02, 0.02);
  }

  lemma TwoSharesApproved(feePct: real, ctx: RiskContext, signalId: Id, intentId: Id)
    requires 1.0 + feePct <= ctx.usdcBalance
    ensures Verdict([UsdcSufficient(feePct), PriceBounds], TwoShares(signalId), ctx, intentId).Approved()
  {
    ApprovedIffAllPass([UsdcSufficient(feePct), PriceBounds], TwoShares(signalId), ctx, intentId);
  }

  lemma SettlingTwoShares(a: Account, intent: Intent, ids: Id)
    requires intent.signalId !in a.seen && intent.userId == 0
    requires intent.side == Buy && intent.size == 2.0 && intent.limitPrice == 0.5
    ensures var b := Process(a, intent, Some(EnoughForTwoShares()), ids, ids);
            BalanceOf(b.ledger, 0) == BalanceOf(a.ledger, 0) - 1.02 && b.seen == a.seen + {intent.signalId}
  {
    hide SimulateFill, Absorb;
    TwoSharesFill();
  }

  /** Signal, approve and settle an order for two shares with a wallet that covers it at `feePct`. */
  lemma CheapGateOverdraws(feePct: real, opening: real)
    requires feePct < PAPER_FEE_PCT && 1.0 + feePct <= opening < 1.02
    ensures var l := Ledger(map[], map[], opening);
            var es := [Signalled(TwoShares(0), NoQuotes(), 0), Settled(0, Some(EnoughForTwoShares()), 0, 0)];
            BalanceOf(RunEvents([UsdcSufficient(feePct), PriceBounds], Start(l), es).account.ledger, 0) < 0.0
  {
    hide Verdict, Process, Exposure;
    var gates := [UsdcSufficient(feePct), PriceBounds];
    var l := Ledger(map[], map[], opening);
    var es := [Signalled(TwoShares(0), NoQuotes(), 0), Settled(0, Some(EnoughForTwoShares()), 0, 0)];
    assert es[..1] == [es[0]] && es[..1][..0] == [];
    var ctx := ContextOf(l, 0, NoQuotes());
    TwoSharesApproved(feePct, ctx, 0, 0);
    var i := Verdict(gates, TwoShares(0), ctx, 0).intent;
    assert i == IntentFor(TwoShares(0), 0, i.riskDecisions) by {
      TwoSharesIntent(gates, ctx);
    }
    assert RunEvents(gates, Start(l), es[..1]) == Next(gates, Start(l), es[0]);
    SettlingTwoShares(Account(l, {}), i, 0);
  }

  lemma TwoSharesIntent(gates: seq<Gate>, ctx: RiskContext)
    ensures var i := Verdict(gates, TwoShares(0), ctx, 0).intent;
            i == IntentFor(TwoShares(0), 0, i.riskDecisions)
  {
  }

  /** With the USDC and price-bounds gates alone, no gated run overdraws if and only if the USDC gate
      reckons with at least the fee rate that the filler charges. */
  lemma SolventIffGateCoversFee(feePct: real)
    ensures feePct >= PAPER_FEE_PCT <==>
            forall l: Ledger, es: seq<Event> ::
              NoOverdraft(l) ==>
                NoOverdraft(RunEvents([UsdcSufficient(feePct), PriceBounds], Start(l), es).account.ledger)
  {
    var gates := [UsdcSufficient(feePct), PriceBounds];
    if feePct >= PAPER_FEE_PCT {
      forall l: Ledger, es: seq<Event> | NoOverdraft(l)
        ensures NoOverdraft(RunEvents(gates, Start(l), es).account.ledger)
      {
        hide RunEvents;
        forall v: Id
          ensures 0.0 <= BalanceOf(RunEvents(gates, Start(l), es).account.ledger, v)
        {
          GatedRunsStaySolvent(gates, l, es, feePct, v);
        }
      }
    } else {
      hide RunEvents;
      var opening := if feePct >= -1.0 then 1.0 + feePct else 0.0;
      CheapGateOverdraws(feePct, opening);
      var l := Ledger(map[], map[], opening);
      assert NoOverdraft(l);
      var es := [Signalled(TwoShares(0), NoQuotes(), 0), Settled(0, Some(EnoughForTwoShares()), 0, 0)];
      assert !NoOverdraft(RunEvents(gates, Start(l), es).account.ledger);
    }
  }

  /** The gate rejects no order without need: at the filler's rate, a full fill of a rejected order at
      its limit would leave less than a micro-unit. */
  lemma RejectedOrderWouldDrainTheBalance(l: Ledger, s: Signal, quotes: Quotes, i: Intent)
    requires 0.0 < s.size && IsSizeTick(s.size) && 0.0 <= s.limitPrice && IsPriceTick(s.limitPrice)
    requires i == IntentFor(s, i.intentId, i.riskDecisions)
    requires !Evaluate(UsdcSufficient(PAPER_FEE_PCT), s, ContextOf(l, s.userId, quotes)).passed
    ensures BalanceOf(Process(Account(l, {}), i, Some(OfferAt(s.limitPrice, s.size)), 0, 0).ledger, s.userId) < 0.000001
  {
    hide SimulateFill, Absorb, ApplyFill, Exposure, Fee;
    WholeFill(Buy, s.size, s.limitPrice, s.limitPrice, OfferAt(s.limitPrice, s.size));
    PriceTickBound(s.limitPrice, s.limitPrice);
    var r := SimulateFill(Buy, s.size, s.limitPrice, OfferAt(s.limitPrice, s.size)).value;
    var f := Fill(0, 0, i.intentId, s.userId, s.marketId, s.tokenId, Buy, s.size, s.limitPrice, r.fee);
    assert Process(Account(l, {}), i, Some(OfferAt(s.limitPrice, s.size)), 0, 0).ledger == ApplyFill(l, f);
    ApplyFillMovesCash(l, f, s.userId);
    FeeIsClose(s.size, s.limitPrice);
    var notional := s.size * s.limitPrice;
    assert notional * (1.0 + PAPER_FEE_PCT) > BalanceOf(l, s.userId);
    assert CashDelta()(f) == -notional - f.fee;
    assert f.fee == Fee(s.size, s.limitPrice, PAPER_FEE_PCT);
  }

  lemma FeeIsClose(filled: real, price: real)
    requires 0.0 < filled && 0.0 <= price
    ensures filled * price * 0.02 < Fee(filled, price, PAPER_FEE_PCT) + 0.000001
  {
    Scale(filled, 0.0, price);
  }
}
