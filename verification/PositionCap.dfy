/** No gated run takes a position outside its cap. */
module PositionCap {
  import opened Domain
  import opened DecimalHelpers
  import opened PositionMath
  import opened PaperFiller
  import opened RiskEngine
  import opened Ledgers
  import opened Execution
  import opened IntentStream
  import opened Pipeline

  predicate WithinCap(i: Intent, size: real, cap: real) {
    Abs(size + Signed(i.side, i.size)) <= cap
  }

  ghost predicate Capped(s: System, cap: real) {
    && (forall k :: Abs(PositionOf(s.account.ledger, k).size) <= cap)
    && (forall u :: u in s.approved ==> s.approved[u].userId == u)
    && (forall u :: u in s.approved ==>
          WithinCap(s.approved[u], PositionOf(s.account.ledger, IntentKey(s.approved[u])).size, cap))
  }

  function IntentKey(i: Intent): Key {
    Key(i.userId, i.marketId, i.tokenId)
  }

  lemma ApprovalIsWithinCap(gates: seq<Gate>, cap: real, l: Ledger, signal: Signal, quotes: Quotes, intentId: Id)
    requires PerMarketPositionCap(cap) in gates
    requires Verdict(gates, signal, ContextOf(l, signal.userId, quotes), intentId).Approved()
    ensures var i := Verdict(gates, signal, ContextOf(l, signal.userId, quotes), intentId).intent;
            i.userId == signal.userId && WithinCap(i, PositionOf(l, IntentKey(i)).size, cap)
  {
    hide Decisions, Exposure;
    ApprovalPassesEachGate(gates, PerMarketPositionCap(cap), signal, ContextOf(l, signal.userId, quotes), intentId);
  }

  lemma NextKeepsCapped(gates: seq<Gate>, s: System, e: Event, cap: real)
    requires PerMarketPositionCap(cap) in gates && Capped(s, cap)
    ensures Capped(Next(gates, s, e), cap)
  {
    hide Verdict, Execute, ApplyFill, SettledFill, Process, Fee, PositionOf;
    var l := s.account.ledger;
    match e
    case Signalled(signal, quotes, intentId) =>
      var ctx := ContextOf(l, signal.userId, quotes);
      if signal.userId !in s.approved && Verdict(gates, signal, ctx, intentId).Approved() {
        ApprovalIsWithinCap(gates, cap, l, signal, quotes, intentId);
      }
    case Settled(u, book, orderId, fillId) =>
      if u in s.approved {
        var i := s.approved[u];
        SettlingAppliesOneFill(s.account, i, book, orderId, fillId);
        var f := SettledFill(s.account, i, book, orderId, fillId);
        if f.Some? {
          assert WithinCap(i, PositionOf(l, IntentKey(i)).size, cap) && KeyOf(f.value) == IntentKey(i);
          forall k: Key
            ensures Abs(PositionOf(ApplyFill(l, f.value), k).size) <= cap
            ensures k.userId != u ==> PositionOf(ApplyFill(l, f.value), k).size == PositionOf(l, k).size
          {
            ApplyFillMovesSize(l, f.value, k);
            assert Abs(PositionOf(l, k).size) <= cap;
          }
        }
      }
  }

  /** No position ever leaves the cap, although the gate looks at the full size only and the fill may
      be any part of it. */
  lemma {:induction false} GatedRunsStayCapped(gates: seq<Gate>, l: Ledger, es: seq<Event>, cap: real, k: Key)
    requires PerMarketPositionCap(cap) in gates
    requires forall j :: Abs(PositionOf(l, j).size) <= cap
    ensures Capped(RunEvents(gates, Start(l), es), cap)
    ensures Abs(PositionOf(RunEvents(gates, Start(l), es).account.ledger, k).size) <= cap
  {
    if es != [] {
      hide Next;
      GatedRunsStayCapped(gates, l, es[..|es| - 1], cap, k);
      NextKeepsCapped(gates, RunEvents(gates, Start(l), es[..|es| - 1]), es[|es| - 1], cap);
    }
  }

  /** The gate rejects no order without need: a full fill would take the position outside the cap. */
  lemma RejectedOrderWouldLeaveTheCap(cap: real, l: Ledger, s: Signal, quotes: Quotes, i: Intent)
    requires 0.0 < s.size && IsSizeTick(s.size)
    requires i == IntentFor(s, i.intentId, i.riskDecisions)
    requires !Evaluate(PerMarketPositionCap(cap), s, ContextOf(l, s.userId, quotes)).passed
    ensures var after := Process(Account(l, {}), i, Some(OfferAt(s.limitPrice, s.size)), 0, 0).ledger;
            Abs(PositionOf(after, IntentKey(i)).size) > cap
  {
    hide SimulateFill, Absorb, ApplyFill, Exposure, QuantizePrice;
    WholeFill(s.side, s.size, s.limitPrice, s.limitPrice, OfferAt(s.limitPrice, s.size));
    var r := SimulateFill(s.side, s.size, s.limitPrice, OfferAt(s.limitPrice, s.size)).value;
    var f := Fill(0, 0, i.intentId, s.userId, s.marketId, s.tokenId, s.side, s.size, r.fillPrice, r.fee);
    assert Process(Account(l, {}), i, Some(OfferAt(s.limitPrice, s.size)), 0, 0).ledger == ApplyFill(l, f);
    ApplyFillMovesSize(l, f, IntentKey(i));
  }
}
