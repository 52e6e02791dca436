/** The gated pipeline: evaluate a signal, submit it if approved, reconcile its fill.

    Each user's signals go through one at a time: from approval to reconciliation the user is busy.
    Different users interleave freely, quotes and books are arbitrary at each step, fills may be
    partial, and a signal id that was executed before changes nothing. */
module Pipeline {
  import opened Domain
  import opened DecimalHelpers
  import opened Sums
  import opened PositionMath
  import opened PaperFiller
  import opened RiskEngine
  import opened Ledgers
  import opened Execution
  import opened IntentStream

  type Quotes = (string, string) -> Option<MarketSnapshot>

  /** The stores and seen signals, and the approved intent of each busy user. */
  datatype System = System(account: Account, approved: map<Id, Intent>)

  datatype Event =
    | Signalled(signal: Signal, quotes: Quotes, intentId: Id)
    | Settled(userId: Id, book: Option<BookSnapshot>, orderId: Id, fillId: Id)

  function CostOfLong(p: Position): real {
    if p.size > 0.0 then p.size * p.averageCost else 0.0
  }

  function LongCost(u: Id): (Key, Position) -> real {
    (k: Key, p: Position) => if k.userId == u then CostOfLong(p) else 0.0
  }

  /** What a user's long positions cost. */
  ghost function Exposure(l: Ledger, u: Id): real {
    SumMap(l.positions, LongCost(u))
  }

  /** The sizes of one user's rows. */
  function SizesOf(l: Ledger, u: Id): map<Key, real> {
    map k | k in l.positions && k.userId == u :: l.positions[k].size
  }

  /** What the gates see: the user's own ledger rows and the quotes of the moment. */
  ghost function ContextOf(l: Ledger, u: Id, quotes: Quotes): RiskContext {
    RiskContext(u, BalanceOf(l, u), Exposure(l, u), SizesOf(l, u), quotes)
  }

  ghost function Next(gates: seq<Gate>, s: System, e: Event): System {
    match e
    case Signalled(signal, quotes, intentId) =>
      if signal.userId in s.approved then s
      else
        var r := Verdict(gates, signal, ContextOf(s.account.ledger, signal.userId, quotes), intentId);
        if r.Approved() then s.(approved := s.approved[signal.userId := r.intent]) else s
    case Settled(u, book, orderId, fillId) =>
      if u !in s.approved then s
      else System(Process(s.account, s.approved[u], book, orderId, fillId), s.approved - {u})
  }

  ghost function RunEvents(gates: seq<Gate>, s: System, es: seq<Event>): System {
    if es == [] then s else Next(gates, RunEvents(gates, s, es[..|es| - 1]), es[|es| - 1])
  }

  function Start(l: Ledger): System {
    System(Account(l, {}), map[])
  }

  /** The fill, if any, that settling an approved intent reconciles. */
  function SettledFill(a: Account, intent: Intent, book: Option<BookSnapshot>, orderId: Id, fillId: Id): Option<Fill> {
    if intent.signalId in a.seen then None else Execute(intent, book, orderId, fillId).fill
  }

  /** A fill that may come from an intent: partial or full, with the filler's fee. */
  predicate FillOf(i: Intent, f: Fill) {
    && f.userId == i.userId && f.marketId == i.marketId && f.tokenId == i.tokenId && f.side == i.side
    && 0.0 < f.size <= i.size
    && f.fee == Fee(f.size, f.price, PAPER_FEE_PCT)
  }

  /** Settling applies one fill of the intent, at a price that its limit reaches, exactly when the
      signal is new and the book is marketable for it; otherwise it leaves the ledger alone. */
  lemma SettlingAppliesOneFill(a: Account, intent: Intent, book: Option<BookSnapshot>, orderId: Id, fillId: Id)
    ensures var f := SettledFill(a, intent, book, orderId, fillId);
            && Process(a, intent, book, orderId, fillId).ledger ==
               (if f.None? then a.ledger else ApplyFill(a.ledger, f.value))
            && (f.Some? <==> intent.signalId !in a.seen && book.Some? && Marketable(intent, book.value))
            && (f.Some? ==>
                  && FillOf(intent, f.value)
                  && f.value.price == QuantizePrice(Opposite(intent.side, book.value).0.value))
  {
    hide ApplyFill, Fee, QuantizePrice, QuantizeSize;
    if book.Some? {
      FillsExactlyWhenMarketable(intent.side, intent.size, intent.limitPrice, book.value, PAPER_FEE_PCT, 0.000001) by {
        assert IsSizeTick(0.000001);
      }
    }
  }

  /** The slippage gate decides on the quotes of the moment, as the filler would see them. */
  lemma SlippageVerdictIsOnTheQuotes(maxSlippage: real, l: Ledger, signal: Signal, quotes: Quotes, intentId: Id)
    ensures var snapshot := quotes(signal.marketId, signal.tokenId);
            Verdict([SlippageCap(maxSlippage)], signal, ContextOf(l, signal.userId, quotes), intentId).Approved() <==>
              && snapshot.Some? && snapshot.value.bestBid.Some? && snapshot.value.bestAsk.Some?
              && var (best, depth) := Opposite(signal.side, snapshot.value.Book());
                 signal.size <= depth && Abs(signal.limitPrice - best.value) <= maxSlippage
  {
    hide Exposure, Decisions, Verdict, Evaluate;
    var gates, ctx := [SlippageCap(maxSlippage)], ContextOf(l, signal.userId, quotes);
    ApprovedIffAllPass(gates, signal, ctx, intentId);
    SlippagePassesWhenFillerCanFillWhole(maxSlippage, signal, ctx);
    assert AllPass(gates, signal, ctx) <==> Evaluate(gates[0], signal, ctx).passed;
  }

  /** An order that was approved on some quotes, the slippage gate being among the gates, fills whole when it
      settles on the same quotes and its limit reaches them: within the cap and less than a tick. */
  lemma ApprovedOnQuotesFillsWhole(
    gates: seq<Gate>, maxSlippage: real, a: Account, signal: Signal, quotes: Quotes, ids: Id)
    requires SlippageCap(maxSlippage) in gates && 0.0 < signal.size && IsSizeTick(signal.size)
    requires Verdict(gates, signal, ContextOf(a.ledger, signal.userId, quotes), ids).Approved()
    requires signal.signalId !in a.seen
    ensures var snapshot := quotes(signal.marketId, signal.tokenId);
            && snapshot.Some?
            && var book := snapshot.value.Book();
               && Opposite(signal.side, book).0.Some?
               && (Crosses(signal.side, signal.limitPrice, Opposite(signal.side, book).0.value) ==>
                     var i := Verdict(gates, signal, ContextOf(a.ledger, signal.userId, quotes), ids).intent;
                     var f := SettledFill(a, i, Some(book), ids, ids);
                     && f.Some? && f.value.size == signal.size
                     && Abs(f.value.price - signal.limitPrice) < maxSlippage + 0.001)
  {
    hide Exposure, Decisions, SimulateFill, Evaluate, IsSizeTick;
    var ctx := ContextOf(a.ledger, signal.userId, quotes);
    ApprovalPassesEachGate(gates, SlippageCap(maxSlippage), signal, ctx, ids);
    SlippageGateMeansCompleteFill(maxSlippage, signal, ctx);
  }

  /** Products of larger non-negative factors are larger. */
  lemma MulBounds(x: real, y: real, x': real, y': real)
    requires 0.0 <= x <= x' && 0.0 <= y <= y'
    ensures 0.0 <= x * y <= x' * y'
  {
    Scale(x, 0.0, y);
    Scale(x, y, y');
    Scale(y', x, x');
  }

  lemma IntentNamesItsUser(gates: seq<Gate>, signal: Signal, ctx: RiskContext, intentId: Id)
    ensures Verdict(gates, signal, ctx, intentId).intent.userId == signal.userId
  {
  }

  lemma FillNamesItsUser(i: Intent, f: Fill)
    requires FillOf(i, f)
    ensures f.userId == i.userId
  {
  }

  lemma RowAfterFill(l: Ledger, f: Fill, k: Key)
    requires f.size > 0.0
    ensures PositionOf(ApplyFill(l, f), k) ==
            if k == KeyOf(f) then Absorb(PositionOf(l, KeyOf(f)), TradeOf(f)) else PositionOf(l, k)
  {
    hide Absorb, ApplyFillToBalance;
  }

  function NoQuotes(): Quotes {
    (m: string, t: string) => None
  }

  lemma TwoEvents(gates: seq<Gate>, s: System, first: Event, second: Event)
    ensures RunEvents(gates, s, [first, second]) == Next(gates, Next(gates, s, first), second)
  {
    hide Next;
    var es := [first, second];
    assert es[..1] == [first] && [first][..0] == [];
    assert RunEvents(gates, s, []) == s;
    assert RunEvents(gates, s, [first]) == Next(gates, s, first);
    assert es[1] == second;
  }

  lemma {:induction false} RunConcat(gates: seq<Gate>, s: System, es: seq<Event>, fs: seq<Event>)
    ensures RunEvents(gates, s, es + fs) == RunEvents(gates, RunEvents(gates, s, es), fs)
    decreases |fs|
  {
    hide Next;
    if fs == [] {
      assert es + fs == es;
    } else {
      RunConcat(gates, s, es, fs[..|fs| - 1]);
      assert (es + fs)[..|es + fs| - 1] == es + fs[..|fs| - 1];
    }
  }
}
