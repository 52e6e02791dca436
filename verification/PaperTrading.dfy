/** The three services wired together, one signal at a time. */
module PaperTrading {
  import opened Domain
  import opened PaperFiller
  import opened RiskEngine
  import opened Ledgers
  import opened Execution
  import opened IntentStream
  import opened Reconciliation
  import opened Pipeline

  ghost function StateOf(executor: PaperExecutionEngine, reconciler: ReconciliationEngine): System
    reads executor, reconciler.positions, reconciler.balances
  {
    System(Account(reconciler.Contents(), executor.seenSignalIds), map[])
  }

  /** Evaluate a signal, submit the intent only if it was approved, and reconcile the fill if there is
      one: the two events of the pipeline, run by the services themselves. */
  method Trade(
    risk: Engine, executor: PaperExecutionEngine, reconciler: ReconciliationEngine,
    signal: Signal, ctx: RiskContext, ghost quotes: Quotes, book: Option<BookSnapshot>,
    intentId: Id, orderId: Id, fillId: Id)
    returns (r: RiskEngineResult)
    requires ctx == ContextOf(reconciler.Contents(), signal.userId, quotes)
    modifies executor, reconciler.positions, reconciler.balances
    ensures r == Verdict(risk.gates, signal, ctx, intentId)
    ensures StateOf(executor, reconciler) ==
            RunEvents(risk.gates, old(StateOf(executor, reconciler)),
                      [Signalled(signal, quotes, intentId), Settled(signal.userId, book, orderId, fillId)])
  {
    ghost var before := StateOf(executor, reconciler);
    TwoEvents(risk.gates, before, Signalled(signal, quotes, intentId), Settled(signal.userId, book, orderId, fillId));
    r := risk.EvaluateSignal(signal, ctx, intentId);
    ghost var between := Next(risk.gates, before, Signalled(signal, quotes, intentId));
    if r.Approved() {
      assert between == System(before.account, map[signal.userId := r.intent]);
      var result := executor.Submit(r.intent, book, orderId, fillId);
      if result.Some? && result.value.fill.Some? {
        var outcome := reconciler.Apply(result.value.fill.value);
      }
      assert StateOf(executor, reconciler).account == Process(before.account, r.intent, book, orderId, fillId);
      assert between.approved - {signal.userId} == map[];
    }
  }
}
