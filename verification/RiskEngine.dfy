/** The risk gates and the engine that runs them, failing fast. */
module RiskEngine {
  import opened Domain
  import opened DecimalHelpers
  import opened PaperFiller

  datatype MarketSnapshot = MarketSnapshot(
    bestBid: Option<real>,
    bestAsk: Option<real>,
    bidDepthAtBest: real,
    askDepthAtBest: real)
  {
    /** There is a mid price when both sides are quoted. */
    predicate HasMid() {
      bestBid.Some? && bestAsk.Some?
    }

    /** The same quotes as the fill simulator sees them. */
    function Book(): BookSnapshot {
      BookSnapshot(bestBid, bestAsk, bidDepthAtBest, askDepthAtBest)
    }
  }

  /** The state that the gates read for one user. */
  datatype RiskContext = RiskContext(
    userId: Id,
    usdcBalance: real,
    userAggregateExposure: real,
    positionSizes: map<Key, real>,
    marketSnapshot: (string, string) -> Option<MarketSnapshot>)
  {
    /** A position that was never stored has size zero. */
    function PositionSize(marketId: string, tokenId: string): real {
      var k := Key(userId, marketId, tokenId);
      if k in positionSizes then positionSizes[k] else 0.0
    }
  }

  const PRICE_MIN: real := 0.01
  const PRICE_MAX: real := 0.99

  /** The configured gates. Every gate that is not modelled is an arbitrary read-only check. */
  datatype Gate =
    | UsdcSufficient(feePct: real)
    | PerMarketPositionCap(maxAbsPosition: real)
    | PerUserAggregateExposureCap(maxExposureUsdc: real)
    | SlippageCap(maxSlippage: real)
    | PriceBounds
    | Other(name: string, check: (Signal, RiskContext) -> bool)

  function Passed(name: string): GateDecision {
    GateDecision(name, true, None)
  }

  function Failed(name: string, reason: Reason): GateDecision {
    GateDecision(name, false, Some(reason))
  }

  function EvaluateSlippage(maxSlippage: real, s: Signal, ctx: RiskContext): GateDecision {
    var name := "slippage_cap";
    var snapshot := ctx.marketSnapshot(s.marketId, s.tokenId);
    if snapshot.None? || !snapshot.value.HasMid() then Failed(name, NoBookSnapshot)
    else
      var depth := if s.side == Buy then snapshot.value.askDepthAtBest else snapshot.value.bidDepthAtBest;
      if s.size > depth then Failed(name, SizeAboveDepth)
      else
        var best := if s.side == Buy then snapshot.value.bestAsk else snapshot.value.bestBid;
        if best.None? then Failed(name, NoBestPrice)
        else if Abs(s.limitPrice - best.value) > maxSlippage then Failed(name, SlippageAboveCap)
        else Passed(name)
  }

  /** One gate's decision. */
  function Evaluate(g: Gate, s: Signal, ctx: RiskContext): GateDecision {
    match g
    case UsdcSufficient(feePct) =>
      var name := "usdc_sufficient";
      if s.side != Buy then Passed(name)
      else
        var cost := s.size * s.limitPrice * (1.0 + feePct);
        if cost > ctx.usdcBalance then Failed(name, CostAboveBalance) else Passed(name)
    case PerMarketPositionCap(maxAbsPosition) =>
      var name := "per_market_position_cap";
      var projected := Abs(ctx.PositionSize(s.marketId, s.tokenId) + Signed(s.side, s.size));
      if projected > maxAbsPosition then Failed(name, PositionAboveCap) else Passed(name)
    case PerUserAggregateExposureCap(maxExposureUsdc) =>
      var name := "per_user_aggregate_exposure_cap";
      var delta := if s.side == Buy then s.size * s.limitPrice else 0.0;
      if ctx.userAggregateExposure + delta > maxExposureUsdc then Failed(name, ExposureAboveCap) else Passed(name)
    case SlippageCap(maxSlippage) =>
      EvaluateSlippage(maxSlippage, s, ctx)
    case PriceBounds =>
      var name := "price_bounds";
      if s.limitPrice < PRICE_MIN then Failed(name, PriceBelowMinimum)
      else if s.limitPrice > PRICE_MAX then Failed(name, PriceAboveMaximum)
      else Passed(name)
    case Other(name, check) =>
      if check(s, ctx) then Passed(name) else Failed(name, OtherReason(name))
  }

  datatype RiskEngineResult = RiskEngineResult(intent: Intent, decisions: seq<GateDecision>) {
    predicate Approved() {
      decisions != [] && forall i :: 0 <= i < |decisions| ==> decisions[i].passed
    }
  }

  function IntentFor(s: Signal, intentId: Id, decisions: seq<GateDecision>): Intent {
    Intent(intentId, s.signalId, s.userId, s.marketId, s.tokenId, s.side, s.size, s.limitPrice, decisions)
  }

  /** The decisions of a fail-fast pass: gates are asked in order up to the first that fails. */
  function Decisions(gates: seq<Gate>, s: Signal, ctx: RiskContext): seq<GateDecision> {
    if gates == [] then []
    else
      var d := Evaluate(gates[0], s, ctx);
      if d.passed then [d] + Decisions(gates[1..], s, ctx) else [d]
  }

  function Verdict(gates: seq<Gate>, s: Signal, ctx: RiskContext, intentId: Id): RiskEngineResult {
    var ds := Decisions(gates, s, ctx);
    RiskEngineResult(IntentFor(s, intentId, ds), ds)
  }

  ghost predicate AllPass(gates: seq<Gate>, s: Signal, ctx: RiskContext) {
    forall i :: 0 <= i < |gates| ==> Evaluate(gates[i], s, ctx).passed
  }

  /** A full report on a signal: the results of the gates in order up to the first failure, or of all of
      them, and an intent that repeats the signal and carries these results. */
  ghost predicate Reports(r: RiskEngineResult, gates: seq<Gate>, s: Signal, ctx: RiskContext, intentId: Id) {
    && |r.decisions| <= |gates|
    && (forall i :: 0 <= i < |r.decisions| ==> r.decisions[i] == Evaluate(gates[i], s, ctx))
    && (forall i :: 0 <= i < |r.decisions| - 1 ==> r.decisions[i].passed)
    && (|r.decisions| == |gates| || (r.decisions != [] && !r.decisions[|r.decisions| - 1].passed))
    && r.intent.riskDecisions == r.decisions
    && r.intent.intentId == intentId && r.intent.signalId == s.signalId && r.intent.userId == s.userId
    && r.intent.marketId == s.marketId && r.intent.tokenId == s.tokenId
    && r.intent.side == s.side && r.intent.size == s.size && r.intent.limitPrice == s.limitPrice
  }

  class Engine {
    const gates: seq<Gate>

    constructor (gates: seq<Gate>)
      ensures this.gates == gates
    {
      this.gates := gates;
    }

    /** Run the gates in order, stop after the first rejection, and build the intent either way. */
    method EvaluateSignal(signal: Signal, ctx: RiskContext, intentId: Id) returns (r: RiskEngineResult)
      ensures r == Verdict(gates, signal, ctx, intentId)
      ensures Reports(r, gates, signal, ctx, intentId)
      ensures r.Approved() <==> gates != [] && AllPass(gates, signal, ctx)
    {
      hide Evaluate, Reports, AllPass;
      var decisions: seq<GateDecision> := [];
      var i := 0;
      while i < |gates|
        invariant 0 <= i <= |gates|
        invariant decisions + Decisions(gates[i..], signal, ctx) == Decisions(gates, signal, ctx)
      {
        var decision := Evaluate(gates[i], signal, ctx);
        assert gates[i..][0] == gates[i] && gates[i..][1..] == gates[i + 1..];
        ghost var before := decisions;
        decisions := decisions + [decision];
        if !decision.passed {
          assert Decisions(gates[i..], signal, ctx) == [decision];
          break;
        }
        ghost var rest := Decisions(gates[i + 1..], signal, ctx);
        assert before + ([decision] + rest) == decisions + rest;
        i := i + 1;
      }
      r := RiskEngineResult(IntentFor(signal, intentId, decisions), decisions);
      ApprovedIffAllPass(gates, signal, ctx, intentId);
      VerdictReports(gates, signal, ctx, intentId);
    }
  }

  /** The decisions are the results of the shortest prefix of the gates that ends in a failure, or of
      all gates when none fails. */
  lemma {:induction false} DecisionsEndAtFirstFailure(gates: seq<Gate>, s: Signal, ctx: RiskContext)
    ensures var ds := Decisions(gates, s, ctx);
            && |ds| <= |gates|
            && (forall i :: 0 <= i < |ds| ==> ds[i] == Evaluate(gates[i], s, ctx))
            && (forall i :: 0 <= i < |ds| - 1 ==> ds[i].passed)
            && (|ds| == |gates| || (ds != [] && !ds[|ds| - 1].passed))
  {
    if gates != [] {
      hide Evaluate;
      DecisionsEndAtFirstFailure(gates[1..], s, ctx);
    }
  }

  /** The verdict reports on every gate that was asked, and only on those. */
  lemma VerdictReports(gates: seq<Gate>, s: Signal, ctx: RiskContext, intentId: Id)
    ensures Reports(Verdict(gates, s, ctx, intentId), gates, s, ctx, intentId)
  {
    hide Evaluate;
    DecisionsEndAtFirstFailure(gates, s, ctx);
  }

  lemma StopsAtItsEnd(
    r: RiskEngineResult, q: RiskEngineResult, gates: seq<Gate>, s: Signal, ctx: RiskContext, intentId: Id)
    requires Reports(r, gates, s, ctx, intentId) && Reports(q, gates, s, ctx, intentId)
    ensures |q.decisions| <= |r.decisions|
  {
    hide Evaluate;
    var m := |r.decisions|;
    if 0 < m < |gates| {
      assert !r.decisions[m - 1].passed && r.decisions[m - 1] == Evaluate(gates[m - 1], s, ctx);
      assert m - 1 < |q.decisions| ==> q.decisions[m - 1] == Evaluate(gates[m - 1], s, ctx);
    }
  }

  /** Reports on the same evaluation are equal. */
  lemma ReportsAreUnique(
    r: RiskEngineResult, q: RiskEngineResult, gates: seq<Gate>, s: Signal, ctx: RiskContext, intentId: Id)
    requires Reports(r, gates, s, ctx, intentId) && Reports(q, gates, s, ctx, intentId)
    ensures r == q
  {
    hide Evaluate;
    StopsAtItsEnd(r, q, gates, s, ctx, intentId);
    StopsAtItsEnd(q, r, gates, s, ctx, intentId);
    assert r.decisions == q.decisions;
  }

  lemma ApprovedIffAllPass(gates: seq<Gate>, s: Signal, ctx: RiskContext, intentId: Id)
    ensures Verdict(gates, s, ctx, intentId).Approved() <==> gates != [] && AllPass(gates, s, ctx)
  {
    hide Evaluate;
    DecisionsEndAtFirstFailure(gates, s, ctx);
    var ds := Decisions(gates, s, ctx);
    if Verdict(gates, s, ctx, intentId).Approved() {
      assert |ds| == |gates|;
      forall i | 0 <= i < |gates| ensures Evaluate(gates[i], s, ctx).passed {
        assert ds[i].passed;
      }
    }
  }

  /** The price-bounds gate passes exactly from one cent to ninety-nine, and says which side was left. */
  lemma PriceBoundsAreCents(s: Signal, ctx: RiskContext)
    ensures var d := Evaluate(PriceBounds, s, ctx);
            && (d.passed <==> 0.01 <= s.limitPrice <= 0.99)
            && (d.reason == Some(PriceBelowMinimum) <==> s.limitPrice < 0.01)
            && (d.reason == Some(PriceAboveMaximum) <==> 0.99 < s.limitPrice)
  {
  }

  /** Every decision bears its gate's name, and gives a reason exactly when it is a rejection. */
  lemma DecisionsExplainThemselves(g: Gate, s: Signal, ctx: RiskContext)
    ensures var d := Evaluate(g, s, ctx);
            && (d.passed <==> d.reason.None?)
            && (g.PriceBounds? ==> d.gateName == "price_bounds")
            && (g.UsdcSufficient? ==>
                  d.gateName == "usdc_sufficient" && d.reason in {None, Some(CostAboveBalance)})
            && (g.PerMarketPositionCap? ==>
                  d.gateName == "per_market_position_cap" && d.reason in {None, Some(PositionAboveCap)})
            && (g.PerUserAggregateExposureCap? ==>
                  d.gateName == "per_user_aggregate_exposure_cap" && d.reason in {None, Some(ExposureAboveCap)})
            && (g.SlippageCap? ==> d.gateName == "slippage_cap")
            && (g.Other? ==> d.gateName == g.name && d.reason in {None, Some(OtherReason(g.name))})
  {
  }

  /** Reordering the gates never changes the verdict. */
  lemma VerdictIgnoresOrder(gates: seq<Gate>, others: seq<Gate>, s: Signal, ctx: RiskContext, intentId: Id)
    requires multiset(gates) == multiset(others)
    ensures Verdict(gates, s, ctx, intentId).Approved() <==> Verdict(others, s, ctx, intentId).Approved()
  {
    hide Evaluate, Verdict;
    ApprovedIffAllPass(gates, s, ctx, intentId);
    ApprovedIffAllPass(others, s, ctx, intentId);
    assert |gates| == |multiset(gates)| == |multiset(others)| == |others|;
    if AllPass(gates, s, ctx) {
      AllPassCarriesOver(gates, others, s, ctx);
    }
    if AllPass(others, s, ctx) {
      AllPassCarriesOver(others, gates, s, ctx);
    }
  }

  lemma AllPassCarriesOver(gates: seq<Gate>, others: seq<Gate>, s: Signal, ctx: RiskContext)
    requires AllPass(gates, s, ctx)
    requires forall g :: g in multiset(others) ==> g in multiset(gates)
    ensures AllPass(others, s, ctx)
  {
    hide Evaluate;
    forall i | 0 <= i < |others|
      ensures Evaluate(others[i], s, ctx).passed
    {
      assert others[i] in multiset(others);
      assert others[i] in gates;
    }
  }

  /** Further gates never turn a rejection into an approval. */
  lemma MoreGatesNeverHelp(gates: seq<Gate>, more: seq<Gate>, s: Signal, ctx: RiskContext, intentId: Id)
    requires gates != []
    ensures Verdict(gates + more, s, ctx, intentId).Approved() ==> Verdict(gates, s, ctx, intentId).Approved()
    ensures Verdict(more + gates, s, ctx, intentId).Approved() ==> Verdict(gates, s, ctx, intentId).Approved()
  {
    hide Evaluate, Verdict;
    ApprovedIffAllPass(gates, s, ctx, intentId);
    ApprovedIffAllPass(gates + more, s, ctx, intentId);
    ApprovedIffAllPass(more + gates, s, ctx, intentId);
    if AllPass(gates + more, s, ctx) {
      forall i | 0 <= i < |gates| ensures Evaluate(gates[i], s, ctx).passed {
        assert (gates + more)[i] == gates[i];
      }
    }
    if AllPass(more + gates, s, ctx) {
      forall i | 0 <= i < |gates| ensures Evaluate(gates[i], s, ctx).passed {
        assert (more + gates)[|more| + i] == gates[i];
      }
    }
  }

  /** An approval means that every configured gate passed on that signal and context. */
  lemma ApprovalPassesEachGate(gates: seq<Gate>, g: Gate, s: Signal, ctx: RiskContext, intentId: Id)
    requires g in gates && Verdict(gates, s, ctx, intentId).Approved()
    ensures Evaluate(g, s, ctx).passed
  {
    hide Evaluate, Verdict;
    ApprovedIffAllPass(gates, s, ctx, intentId);
    var i :| 0 <= i < |gates| && gates[i] == g;
  }

  /** A marketable order of tick-aligned positive size that passed the slippage gate fills completely on
      the same quotes, within the cap and less than one tick of its limit. */
  lemma SlippageGateMeansCompleteFill(maxSlippage: real, s: Signal, ctx: RiskContext)
    requires Evaluate(SlippageCap(maxSlippage), s, ctx).passed
    requires s.size > 0.0 && IsSizeTick(s.size)
    ensures var snapshot := ctx.marketSnapshot(s.marketId, s.tokenId);
            && snapshot.Some?
            && var (best, _) := Opposite(s.side, snapshot.value.Book());
               && best.Some?
               && (Crosses(s.side, s.limitPrice, best.value) ==>
                     var r := SimulateFill(s.side, s.size, s.limitPrice, snapshot.value.Book());
                     && r.Some?
                     && r.value.filledSize == s.size
                     && Abs(r.value.fillPrice - s.limitPrice) < maxSlippage + 0.001)
  {
    SizeTickBound(s.size, s.size);
  }

  /** The slippage gate passes exactly when both quotes exist, the depth on the side that the filler
      hits holds the whole order, and the limit is within the cap of that side's price. "No best price"
      is never its reason, because a snapshot without one has no mid price and was rejected before. */
  lemma SlippagePassesWhenFillerCanFillWhole(maxSlippage: real, s: Signal, ctx: RiskContext)
    ensures var d, snapshot := Evaluate(SlippageCap(maxSlippage), s, ctx), ctx.marketSnapshot(s.marketId, s.tokenId);
            && (d.passed <==>
                  && snapshot.Some? && snapshot.value.bestBid.Some? && snapshot.value.bestAsk.Some?
                  && var (best, depth) := Opposite(s.side, snapshot.value.Book());
                     s.size <= depth && Abs(s.limitPrice - best.value) <= maxSlippage)
            && (d.reason == Some(NoBookSnapshot) <==>
                  snapshot.None? || snapshot.value.bestBid.None? || snapshot.value.bestAsk.None?)
            && (d.reason == Some(SlippageAboveCap) ==>
                  s.size <= Opposite(s.side, snapshot.value.Book()).1)
            && d.reason in {None, Some(NoBookSnapshot), Some(SizeAboveDepth), Some(SlippageAboveCap)}
  {
  }
}
